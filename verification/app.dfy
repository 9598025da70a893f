/** The handlers of `src/app.js` as transitions of one immutable client state: sending a
    turn to the three slots, saving, restoring and starting conversations, the max-tokens
    buttons, the system-message field, the default model of each slot, and saving a new
    API configuration. */
module App {
  import opened Text
  import opened Messages
  import opened Gateway
  import opened Conversation

  /** Everything the client keeps between events: the live conversation, the saved
      conversations (`conversationHistory`, newest first) and the gateway. */
  datatype State = State(session: Session, saved: seq<Conversation>, gateway: GatewayState)

  /** Saved conversations as the client produces them: bounded, keyed by id, and each
      with three histories of equal length. */
  predicate WellFormedSaved(saved: seq<Conversation>) {
    && WellFormedIndex(saved)
    && forall k :: 0 <= k < |saved| ==> saved[k].histories.Balanced()
  }

  /** What holds between events: the three live histories have equal length, the saved
      list is well formed, and there is always at least one model to pick. */
  predicate Invariant(st: State) {
    && st.session.histories.Balanced()
    && WellFormedSaved(st.saved)
    && |st.gateway.models| > 0
  }

  /** `checkApiConfig`: a base URL and a key are both present. */
  predicate Configured(c: Config)
    ensures Configured(c) ==> |c.baseUrl| > 0 && |c.apiKey| > 0
    ensures c.baseUrl == [] || c.apiKey == [] ==> !Configured(c)
  {
    c.baseUrl != [] && c.apiKey != []
  }

  // ---------------------------------------------------------------------------
  // Saving a conversation keeps the saved list well formed
  // ---------------------------------------------------------------------------

  /** Every entry after an upsert is the new conversation or one that was there before. */
  lemma {:induction false} UpsertEntries(saved: seq<Conversation>, c: Conversation)
    ensures forall k :: 0 <= k < |Upsert(saved, c)| ==> Upsert(saved, c)[k] == c || Upsert(saved, c)[k] in saved
  {
    var found := FindIndex(saved, c.id);
    var updated := if found.Some? then saved[found.value := c] else [c] + saved;
    assert forall k :: 0 <= k < |updated| ==> updated[k] == c || updated[k] in saved by {
      forall k | 0 <= k < |updated| ensures updated[k] == c || updated[k] in saved {
        if found.Some? {
          if k != found.value { assert updated[k] == saved[k]; }
        } else if k > 0 {
          assert updated[k] == saved[k - 1];
        }
      }
    }
    assert Upsert(saved, c) == if |updated| > Capacity then updated[..|updated| - 1] else updated;
  }

  /** Saving a balanced session into a well-formed list keeps it well formed. */
  lemma SaveKeepsWellFormed(s: Session, saved: seq<Conversation>, date: string)
    requires WellFormedSaved(saved) && s.histories.Balanced()
    ensures WellFormedSaved(Save(s, saved, date))
  {
    if |s.histories.model1| > 0 {
      UpsertEntries(saved, Snapshot(s, date));
    }
  }

  // ---------------------------------------------------------------------------
  // Start-up
  // ---------------------------------------------------------------------------

  /** Page load: a fresh session, the stored configuration with the default models, the
      stored conversation list, and, when the configuration is complete, the model pickers
      initialised from the endpoint. */
  function Start(id: string, storedConfig: Config, storedSaved: seq<Conversation>, listing: Config -> ListResponse): (st: State)
    ensures st.session.(selected := DefaultSelection) == InitialSession(id)
    ensures st.saved == storedSaved && st.gateway.config == storedConfig
    ensures !Configured(storedConfig) ==> st.gateway.models == DefaultModels && st.session == InitialSession(id)
    ensures Configured(storedConfig) ==>
      && st.gateway.models == FetchModels(listing(storedConfig))
      && st.session.selected == SelectModels(DefaultSelection, st.gateway.models)
      && forall slot: Slot :: Offers(st.gateway.models, st.session.selected.Get(slot))
    ensures WellFormedSaved(storedSaved) ==> Invariant(st)
  {
    var initial := State(InitialSession(id), storedSaved, InitialGateway(storedConfig));
    if Configured(storedConfig) then InitModelSelects(initial, listing) else initial
  }

  // ---------------------------------------------------------------------------
  // Sending a turn
  // ---------------------------------------------------------------------------

  /** The request one slot sends: its model, the system message followed by the slot's
      own history, and the shared sampling settings. */
  function Request(s: Session, slot: Slot): (r: ChatRequest)
    ensures r.model == s.selected.Get(slot)
    ensures |r.messages| == |s.histories.Get(slot)| + 1
    ensures r.messages[0] == s.systemMessage && r.messages[1..] == s.histories.Get(slot)
    ensures r.temperature == s.temperature && r.maxTokens == s.maxTokens
  {
    ChatRequest(s.selected.Get(slot), [s.systemMessage] + s.histories.Get(slot), s.temperature, s.maxTokens)
  }

  /** The message a slot receives for its request. The endpoint is indexed by the slot:
      the three calls are separate `fetch`es to a sampling model, so two slots sending the
      same request may get different answers, and one of them may fail alone. */
  function Reply(s: Session, config: Config, endpoint: (Slot, Config, ChatRequest) -> ChatResponse, slot: Slot): Message {
    CallModel(s.selected.Get(slot), endpoint(slot, config, Request(s, slot)))
  }

  /** One slot's history after a turn: the user message, then the reply to the request made
      of the system message and the history including that user message. */
  lemma TurnShape(s: Session, text: string, config: Config, endpoint: (Slot, Config, ChatRequest) -> ChatResponse, slot: Slot)
    ensures var pending := s.(histories := s.histories.AppendToAll(Message(User, text)));
      var answered := pending.histories.AppendEach(slot' => Reply(pending, config, endpoint, slot'));
      var before := s.histories.Get(slot);
      var model := s.selected.Get(slot);
      var request := ChatRequest(model, [s.systemMessage] + before + [Message(User, text)], s.temperature, s.maxTokens);
      answered.Get(slot) == before + [Message(User, text), CallModel(model, endpoint(slot, config, request))]
  {
    var pending := s.(histories := s.histories.AppendToAll(Message(User, text)));
    var before := s.histories.Get(slot);
    var user := Message(User, text);
    assert [s.systemMessage] + before + [user] == [s.systemMessage] + (before + [user]);
    assert Request(pending, slot).messages == [s.systemMessage] + before + [user];
    assert (before + [user]) + [Reply(pending, config, endpoint, slot)] == before + [user, Reply(pending, config, endpoint, slot)];
  }

  /** `handleSendMessage()`: a blank input does nothing. Otherwise the trimmed input is
      appended to all three histories as a user message, each slot then sends the system
      message followed by its own history, each slot's reply (an error message when its
      call failed) is appended to that slot only, and the conversation is saved. Nothing
      but the histories of the live session changes in it. */
  function SendMessage(st: State, input: string, endpoint: (Slot, Config, ChatRequest) -> ChatResponse, date: string): (r: State)
    ensures AllSpace(input) ==> r == st
    ensures !AllSpace(input) ==> forall slot: Slot ::
      var before := st.session.histories.Get(slot);
      var user := Message(User, Trim(input));
      var model := st.session.selected.Get(slot);
      var request := ChatRequest(model, [st.session.systemMessage] + before + [user], st.session.temperature, st.session.maxTokens);
      r.session.histories.Get(slot) == before + [user, CallModel(model, endpoint(slot, st.gateway.config, request))]
    ensures r.session.(histories := st.session.histories) == st.session
    ensures r.gateway == st.gateway
    ensures !AllSpace(input) ==> r.saved == Save(r.session, st.saved, date)
    ensures !AllSpace(input) && |st.saved| <= Capacity ==>
      FindIndex(r.saved, st.session.id).Some? && r.saved[FindIndex(r.saved, st.session.id).value] == Snapshot(r.session, date)
  {
    var text := Trim(input);
    if text == [] then st
    else
      var pending := st.session.(histories := st.session.histories.AppendToAll(Message(User, text)));
      var answered := pending.(histories := pending.histories.AppendEach(slot => Reply(pending, st.gateway.config, endpoint, slot)));
      assert forall slot: Slot ::
        var before := st.session.histories.Get(slot);
        var model := st.session.selected.Get(slot);
        var request := ChatRequest(model, [st.session.systemMessage] + before + [Message(User, text)], st.session.temperature, st.session.maxTokens);
        answered.histories.Get(slot) == before + [Message(User, text), CallModel(model, endpoint(slot, st.gateway.config, request))]
      by {
        forall slot: Slot {
          TurnShape(st.session, text, st.gateway.config, endpoint, slot);
        }
      }
      st.(session := answered, saved := Save(answered, st.saved, date))
  }

  /** A turn keeps the histories balanced (each grows by two) and the saved list well
      formed. */
  lemma SendMessageKeepsInvariant(st: State, input: string, endpoint: (Slot, Config, ChatRequest) -> ChatResponse, date: string)
    requires Invariant(st)
    ensures Invariant(SendMessage(st, input, endpoint, date))
  {
    var r := SendMessage(st, input, endpoint, date);
    if !AllSpace(input) {
      forall slot: Slot ensures |r.session.histories.Get(slot)| == |st.session.histories.Get(slot)| + 2 {
        SentHistory(st, input, endpoint, date, slot);
      }
      assert r.session.histories.Balanced() by {
        assert |r.session.histories.Get(Model1)| == |st.session.histories.Get(Model1)| + 2;
        assert |r.session.histories.Get(Model2)| == |st.session.histories.Get(Model2)| + 2;
        assert |r.session.histories.Get(Model3)| == |st.session.histories.Get(Model3)| + 2;
      }
      SaveKeepsWellFormed(r.session, st.saved, date);
    }
  }

  /** The slot's call with this request fails: `callModelAPI` ends in its `catch`, whether
      the request itself failed, the status was not ok, or a 200 body had no usable choice. */
  predicate Refuses(endpoint: (Slot, Config, ChatRequest) -> ChatResponse, slot: Slot, config: Config, request: ChatRequest) {
    Complete(endpoint(slot, config, request)).Err?
  }

  /** An assistant message whose text carries the model id right after "调用模型 ". */
  predicate NamesModel(m: Message, model: string) {
    && m.role == Assistant
    && |m.content| >= |CallFailedPrefix| + |model|
    && m.content[|CallFailedPrefix|..|CallFailedPrefix| + |model|] == model
  }

  /** A turn in which a slot's call fails (a bad key, an unreachable endpoint, a 200 body
      without a usable choice) still ends that slot's history with an assistant message
      that names the slot's model. */
  lemma FailedTurnNamesModel(st: State, input: string, endpoint: (Slot, Config, ChatRequest) -> ChatResponse, date: string, slot: Slot)
    requires !AllSpace(input)
    requires Refuses(endpoint, slot, st.gateway.config,
      ChatRequest(st.session.selected.Get(slot), [st.session.systemMessage] + st.session.histories.Get(slot) + [Message(User, Trim(input))],
        st.session.temperature, st.session.maxTokens))
    ensures var h := SendMessage(st, input, endpoint, date).session.histories.Get(slot);
      |h| == |st.session.histories.Get(slot)| + 2 && NamesModel(h[|h| - 1], st.session.selected.Get(slot))
  {
    var before := st.session.histories.Get(slot);
    var user := Message(User, Trim(input));
    var model := st.session.selected.Get(slot);
    var request := ChatRequest(model, [st.session.systemMessage] + before + [user], st.session.temperature, st.session.maxTokens);
    var response := endpoint(slot, st.gateway.config, request);
    assert Refuses(endpoint, slot, st.gateway.config, request);
    SentHistory(st, input, endpoint, date, slot);
    EndsWithFailure(SendMessage(st, input, endpoint, date).session.histories.Get(slot), before, user, model, response);
  }

  /** One slot's history after a non-blank turn, as `SendMessage` promises it. */
  lemma SentHistory(st: State, input: string, endpoint: (Slot, Config, ChatRequest) -> ChatResponse, date: string, slot: Slot)
    requires !AllSpace(input)
    ensures var before := st.session.histories.Get(slot);
      var user := Message(User, Trim(input));
      var model := st.session.selected.Get(slot);
      var request := ChatRequest(model, [st.session.systemMessage] + before + [user], st.session.temperature, st.session.maxTokens);
      SendMessage(st, input, endpoint, date).session.histories.Get(slot) == before + [user, CallModel(model, endpoint(slot, st.gateway.config, request))]
  {
  }

  lemma EndsWithFailure(h: seq<Message>, before: seq<Message>, user: Message, model: string, response: ChatResponse)
    requires Complete(response).Err?
    requires h == before + [user, CallModel(model, response)]
    ensures |h| == |before| + 2 && NamesModel(h[|h| - 1], model)
  {
    assert h[|h| - 1] == CallModel(model, response);
    FailedCallNamesModel(model, response);
  }

  // ---------------------------------------------------------------------------
  // Saving, restoring, starting conversations
  // ---------------------------------------------------------------------------

  /** `saveCurrentConversation()` as a state change: only the saved list changes. */
  function SaveCurrentConversation(st: State, date: string): (r: State)
    ensures r.session == st.session && r.gateway == st.gateway
    ensures r.saved == Save(st.session, st.saved, date)
    ensures |st.session.histories.model1| == 0 ==> r == st
    ensures |st.session.histories.model1| > 0 && |st.saved| <= Capacity ==>
      FindIndex(r.saved, st.session.id).Some? && r.saved[FindIndex(r.saved, st.session.id).value] == Snapshot(st.session, date)
    ensures Invariant(st) ==> Invariant(r)
  {
    assert Invariant(st) ==> WellFormedSaved(Save(st.session, st.saved, date)) by {
      if Invariant(st) { SaveKeepsWellFormed(st.session, st.saved, date); }
    }
    st.(saved := Save(st.session, st.saved, date))
  }

  /** `loadConversation(conversation)`: the live session becomes the conversation's; the
      saved list and the gateway are untouched. */
  function LoadConversation(st: State, c: Conversation): (r: State)
    ensures r.saved == st.saved && r.gateway == st.gateway
    ensures r.session == Restore(c)
    ensures r.session.id == c.id && r.session.histories == c.histories
    ensures r.session.maxTokens == RestoredMaxTokens(c.maxTokens)
    ensures Invariant(st) && c in st.saved ==> Invariant(r)
  {
    st.(session := Restore(c))
  }

  /** Saving and then loading the saved entry for the current id gives back the live
      session, provided its max-tokens value is not 0. */
  lemma SaveThenLoad(st: State, date: string)
    requires |st.session.histories.model1| > 0 && |st.saved| <= Capacity
    requires st.session.maxTokens != 0
    ensures var saved := SaveCurrentConversation(st, date);
      var found := FindIndex(saved.saved, st.session.id);
      && found.Some?
      && LoadConversation(saved, saved.saved[found.value]).session == st.session
  {
    UpsertFindsConversation(st.saved, Snapshot(st.session, date));
    RestoreSnapshot(st.session, date);
  }

  /** `createNewConversation()`: the current conversation is saved, then the histories are
      emptied under a fresh id; system message, temperature, max tokens and selected models
      carry over. */
  function NewConversation(st: State, freshId: string, date: string): (r: State)
    ensures r.session.id == freshId && r.session.histories == EmptyHistories
    ensures r.session.systemMessage == st.session.systemMessage
    ensures r.session.temperature == st.session.temperature
    ensures r.session.maxTokens == st.session.maxTokens
    ensures r.session.selected == st.session.selected
    ensures r.saved == Save(st.session, st.saved, date) && r.gateway == st.gateway
    ensures Invariant(st) ==> Invariant(r)
  {
    var saved := SaveCurrentConversation(st, date);
    saved.(session := saved.session.(id := freshId, histories := EmptyHistories))
  }

  // ---------------------------------------------------------------------------
  // Settings
  // ---------------------------------------------------------------------------

  const MaxTokensCeiling := 32000
  const MaxTokensFloor := 100

  /** The "+" button: double, but never above 32000. */
  function IncreaseMaxTokens(m: int): (r: int)
    ensures r <= MaxTokensCeiling
    ensures 2 * m <= MaxTokensCeiling ==> r == 2 * m
    ensures 2 * m > MaxTokensCeiling ==> r == MaxTokensCeiling
  {
    if 2 * m > MaxTokensCeiling then MaxTokensCeiling else 2 * m
  }

  /** The "-" button: `Math.floor(m / 2)`, but never below 100. (Dafny's `/` by a positive
      divisor rounds down, as `Math.floor` does, also for negative `m`.) */
  function DecreaseMaxTokens(m: int): (r: int)
    ensures r >= MaxTokensFloor
    ensures m >= 2 * MaxTokensFloor ==> 2 * r <= m < 2 * r + 2
    ensures m < 2 * MaxTokensFloor ==> r == MaxTokensFloor
  {
    if m / 2 < MaxTokensFloor then MaxTokensFloor else m / 2
  }

  /** The buttons keep a value inside [100, 32000], and undo each other away from the
      bounds. */
  lemma MaxTokensButtons(m: int)
    ensures MaxTokensFloor <= m <= MaxTokensCeiling ==>
      && MaxTokensFloor <= IncreaseMaxTokens(m) <= MaxTokensCeiling
      && MaxTokensFloor <= DecreaseMaxTokens(m) <= MaxTokensCeiling
    ensures MaxTokensFloor <= m <= MaxTokensCeiling / 2 ==> DecreaseMaxTokens(IncreaseMaxTokens(m)) == m
    ensures 2 * MaxTokensFloor <= m <= MaxTokensCeiling && m % 2 == 0 ==> IncreaseMaxTokens(DecreaseMaxTokens(m)) == m
  {
  }

  /** The system-message field: the message content becomes the trimmed input, or the
      default prompt when the input is blank; its role and everything else stay. */
  function EditSystemMessage(st: State, input: string): (r: State)
    ensures r.session.systemMessage.role == st.session.systemMessage.role
    ensures AllSpace(input) ==> r.session.systemMessage.content == DefaultSystemPrompt
    ensures !AllSpace(input) ==> r.session.systemMessage.content == Trim(input)
    ensures r.session.(systemMessage := st.session.systemMessage) == st.session
    ensures r.saved == st.saved && r.gateway == st.gateway
  {
    var content := OrElse(Trim(input), DefaultSystemPrompt);
    st.(session := st.session.(systemMessage := st.session.systemMessage.(content := content)))
  }

  // ---------------------------------------------------------------------------
  // Model pickers
  // ---------------------------------------------------------------------------

  predicate Offers(options: seq<ModelDescriptor>, id: string) {
    exists k :: 0 <= k < |options| && options[k].id == id
  }

  /** `models.filter(model => model.type === "model")`. */
  function ModelOptions(models: seq<ModelDescriptor>): (options: seq<ModelDescriptor>)
    ensures |options| <= |models|
    ensures forall k :: 0 <= k < |options| ==> options[k].kind == ModelKind && options[k] in models
    ensures (forall k :: 0 <= k < |models| ==> models[k].kind == ModelKind) ==> options == models
  {
    if |models| == 0 then []
    else
      var rest := ModelOptions(models[1..]);
      assert forall k :: 0 < k < |models| ==> models[k] == models[1..][k - 1];
      if models[0].kind == ModelKind then [models[0]] + rest else rest
  }

  /** The model a slot ends up with: its current choice when the options offer it (or
      when there are no options), otherwise the option at the slot's position modulo the
      number of options. With any option at all, the result is an offered id. */
  function DefaultChoice(current: string, options: seq<ModelDescriptor>, slot: Slot): (id: string)
    ensures |options| == 0 || Offers(options, current) ==> id == current
    ensures |options| > 0 ==> Offers(options, id)
    ensures |options| > 0 && !Offers(options, current) ==> id == options[slot.Index() % |options|].id
  {
    if |options| == 0 || Offers(options, current) then current
    else options[slot.Index() % |options|].id
  }

  /** The default-selection loop of `initModelSelects` over the three pickers. */
  function SelectModels(selected: Selection, options: seq<ModelDescriptor>): (r: Selection)
    ensures forall slot: Slot :: r.Get(slot) == DefaultChoice(selected.Get(slot), options, slot)
    ensures |options| > 0 ==> forall slot: Slot :: Offers(options, r.Get(slot))
    ensures |options| == 0 ==> r == selected
  {
    Selection(
      DefaultChoice(selected.model1, options, Model1),
      DefaultChoice(selected.model2, options, Model2),
      DefaultChoice(selected.model3, options, Model3))
  }

  /** With three or more options and no current choice among them, the slots get the
      first, second and third option. */
  lemma SelectModelsSpreads(selected: Selection, options: seq<ModelDescriptor>)
    requires |options| >= 3
    requires forall slot: Slot :: !Offers(options, selected.Get(slot))
    ensures SelectModels(selected, options) == Selection(options[0].id, options[1].id, options[2].id)
  {
    var r := SelectModels(selected, options);
    assert Model1.Index() % |options| == 0 && Model2.Index() % |options| == 1 && Model3.Index() % |options| == 2;
    assert r.model1 == DefaultChoice(selected.model1, options, Model1) == options[0].id by {
      assert !Offers(options, selected.Get(Model1));
    }
    assert r.model2 == DefaultChoice(selected.model2, options, Model2) == options[1].id by {
      assert !Offers(options, selected.Get(Model2));
    }
    assert r.model3 == DefaultChoice(selected.model3, options, Model3) == options[2].id by {
      assert !Offers(options, selected.Get(Model3));
    }
  }

  /** `initModelSelects()`: the model list is refreshed from the active endpoint (it is never
      empty, so the guard that would refill it with the defaults never fires) and every
      slot ends up on an offered model, keeping its choice when it is offered. */
  function InitModelSelects(st: State, listing: Config -> ListResponse): (r: State)
    ensures r.gateway == RefreshModels(st.gateway, listing)
    ensures |r.gateway.models| > 0
    ensures r.session.selected == SelectModels(st.session.selected, r.gateway.models)
    ensures forall slot: Slot :: Offers(r.gateway.models, r.session.selected.Get(slot))
    ensures forall slot: Slot :: Offers(r.gateway.models, st.session.selected.Get(slot)) ==>
      r.session.selected.Get(slot) == st.session.selected.Get(slot)
    ensures r.session.(selected := st.session.selected) == st.session && r.saved == st.saved
    ensures Invariant(st) ==> Invariant(r)
  {
    var gateway := RefreshModels(st.gateway, listing);
    var options := ModelOptions(gateway.models);
    assert options == gateway.models;
    st.(gateway := gateway, session := st.session.(selected := SelectModels(st.session.selected, options)))
  }

  // ---------------------------------------------------------------------------
  // Saving an API configuration
  // ---------------------------------------------------------------------------

  const MissingConfigAlert := "请输入有效的API Base URL和API Key"
  const ValidationFailedPrefix := "API配置验证失败: "
  const NoModelsAlert := "无法获取模型列表，请检查API配置是否正确"

  datatype ConfigOutcome = Saved | Rejected(alert: string)
  datatype ConfigSave = ConfigSave(state: State, outcome: ConfigOutcome)

  /** The "save configuration" button: the trimmed candidate is first checked with
      `testAPIConfig` against ITS OWN endpoint; only when both fields are non-blank and the
      check lists at least one model is it made active, after which the pickers are
      initialised from it. A rejected candidate leaves the whole state unchanged. */
  function SaveApiConfig(st: State, baseInput: string, keyInput: string, listing: Config -> ListResponse): (r: ConfigSave)
    ensures r.outcome.Rejected? ==> r.state == st
    ensures var candidate := Config(Trim(baseInput), Trim(keyInput));
      var tested := TestConfig(listing(candidate));
      r.outcome.Saved? <==>
        !AllSpace(baseInput) && !AllSpace(keyInput) && tested.Valid? && |tested.models| > 0
    ensures r.outcome.Saved? ==>
      && r.state.gateway.config == Config(Trim(baseInput), Trim(keyInput))
      && Configured(r.state.gateway.config)
      && forall slot: Slot :: Offers(r.state.gateway.models, r.state.session.selected.Get(slot))
    ensures r.outcome.Saved? ==>
      && r.state.gateway.models == FetchModels(listing(Config(Trim(baseInput), Trim(keyInput))))
      && r.state.session.selected == SelectModels(st.session.selected, r.state.gateway.models)
      && r.state.session.(selected := st.session.selected) == st.session
    ensures r.state.saved == st.saved && r.state.session.histories == st.session.histories
    ensures Invariant(st) ==> Invariant(r.state)
  {
    var baseUrl := Trim(baseInput);
    var apiKey := Trim(keyInput);
    if baseUrl == [] || apiKey == [] then ConfigSave(st, Rejected(MissingConfigAlert))
    else
      match TestConfig(listing(Config(baseUrl, apiKey)))
      case Invalid(message) => ConfigSave(st, Rejected(ValidationFailedPrefix + message))
      case Valid(models) =>
        if |models| == 0 then ConfigSave(st, Rejected(NoModelsAlert))
        else
          var updated := st.(gateway := UpdateConfig(baseUrl, apiKey, listing));
          ConfigSave(InitModelSelects(updated, listing), Saved)
  }
}

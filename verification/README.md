# multi-llm-compare, modelled in Dafny

multi-llm-compare is a browser client that sends one prompt to three chat-completion
endpoints ("slots" `model1`..`model3`) side by side. It keeps one message history per slot,
saves the conversation into a list of at most 20 snapshots, and restores snapshots on
request. Its gateway (`src/services/api.js`) lists the available models and validates an
API configuration. The gateway also turns every completion call into a message, even a
failed one.

This project models the decision logic of those two files as pure functions over
immutable values:

- `basics.dfy`: `Option` and `Result`.
- `text.dfy`: `Text`. JavaScript's `trim` and the `s || fallback` idiom on strings.
- `messages.dfy`: `Messages`. Roles and chat messages.
- `gateway.dfy`: `Gateway`, for `src/services/api.js`. It covers display names and
  descriptors, `testAPIConfig`, `fetchAvailableModels` with its default list,
  `updateAPIConfig`, and `callModelAPI`.
- `conversation.dfy`: `Conversation`, for the state part of `src/app.js`. It covers the
  slot histories, the live session, titles, the upsert into the bounded list, snapshot
  and restore.
- `app.dfy`: `App`, for the handlers of `src/app.js` as transitions of one client `State`.
  These are sending a turn, saving, loading and starting conversations, the max-tokens
  buttons, the system-message field, the pickers' default models, and saving an API
  configuration.

The network enters only as parameters. `listing: Config -> ListResponse` is what
`GET {baseUrl}/models` answers for a configuration. `endpoint: (Slot, Config, ChatRequest)
-> ChatResponse` is what one slot's `POST {baseUrl}/chat/completions` answers for a request.
The slot is an argument because the three calls of a turn are separate requests to a
sampling model. Two slots that send the same request may get different answers, and either
one may fail alone. Because they are parameters, contracts can say which configuration each
request used. A JavaScript exception that the source catches is a response variant that
carries the exception's `message`. Examples are a rejected `fetch`, a body that is not JSON, and an entry without a
string id. Generated ids and `toLocaleString` dates are parameters too.

Behaviour worth noting:

- The title of a conversation without a user message is `"新对话"`.
- The error text of a non-ok completion is `"API错误: "` followed by the reason. This is
  wrapped in `"调用模型 <id> 时出错: "`.
- `fetchAvailableModels` never fails. On a non-ok status it falls back to the three
  default models.
- Max tokens is not held inside [100, 32000]. Only the "+" button clamps at 32000 and only
  the "-" button clamps at 100. The typed-in value is taken unclamped.

## Model

| member | source | states |
|---|---|---|
| Text.Trim | src/app.js:227 | The result is `s` minus a space-only prefix and a space-only suffix. It has no space at either end. It is empty exactly when `s` is all spaces. |
| Gateway.PathTail | src/services/api.js:41 | `id.split('/').pop()` is the longest suffix of `id` without a slash. It is preceded by a slash unless it is the whole id. |
| Gateway.DisplayName | src/services/api.js:98 | The name is the text after the last `/`. An id without `/` maps to itself. An id ending in `/` maps to the full id. |
| Gateway.DescribeAll | src/services/api.js:39-43 | The mapping keeps length, order and ids, and sets the display name and type `"model"`. It fails exactly when some entry has no string id, and then with the first such entry's error. |
| Gateway.FirstBadError | src/services/api.js:96-100 | The error `map` stops at is that of the first entry without a string id. |
| Gateway.Describe | src/services/api.js:39-43 | A listed id becomes a descriptor with that id, its display name and type `"model"`. An id without `/` is its own name. |
| Gateway.CaughtMessage | src/services/api.js:59 | The caught error's message when non-empty, else `"网络请求失败"`. Never empty. |
| Gateway.TestConfig | src/services/api.js:18-62 | It succeeds exactly when the body has `data` with well-formed entries, and then returns their descriptors. A non-ok status gives the list-failed message with the status text. A body without `data` gives the format message. A rejected request, an unreadable body or an entry without a string id gives the caught error's message, or `"网络请求失败"` when that is empty. |
| Gateway.FetchModels | src/services/api.js:78-118 | The result is never empty and every entry has type `"model"`. It equals the models `TestConfig` returns for the same response when that list is non-empty, and the three defaults otherwise. |
| Gateway.InitialGateway | src/services/api.js:4-15 | At load, the stored configuration is active and the default models are cached. |
| Gateway.RefreshModels | src/services/api.js:78-117 | The model cache is refilled from the active configuration's endpoint. The configuration is unchanged and the cache is never empty. |
| Gateway.UpdateConfig | src/services/api.js:65-75 | The active base URL and key become exactly the arguments. The models are then fetched with the new configuration. |
| Gateway.ErrorReason | src/services/api.js:139-146 | For a JSON body the reason is its non-empty `error.message`, else the status text. For a non-JSON body it is the non-empty raw text, else the status text. |
| Gateway.Complete | src/services/api.js:122-156 | It succeeds exactly when `choices[0].message` is present, and then returns that message. A non-ok status gives `"API错误: "` plus the reason. A missing choice or message gives the format message. A rejected request, or a 200 body that does not parse, gives that exception's message. |
| Gateway.CallModel | src/services/api.js:121-163 | It never fails. On success it returns the first choice's message. Otherwise it returns an assistant message `"调用模型 " + id + " 时出错: " + error`. |
| Gateway.FailedCallNamesModel | src/services/api.js:157-162 | A failed call's reply (any response `Complete` rejects, including a 200 without a usable choice) has role assistant, has the model id at a fixed offset, and ends with the error's message. |
| Conversation.Histories.AppendToAll | src/app.js:240-242 | The user message is appended to each of the three histories. Equal lengths are kept. |
| Conversation.Histories.AppendEach | src/app.js:268-270 | Each slot's own reply is appended to that slot only. Equal lengths are kept. |
| Conversation.InitialSession | src/app.js:3-31 | The initial state has empty histories, the default system prompt, temperature 0.7, 2048 max tokens and the three default models. |
| Conversation.FirstUserMessage | src/app.js:364 | `find` returns the first message with role user. It returns none exactly when no message has that role. |
| Conversation.Title | src/app.js:363-369 | The title is the first user message if it has at most 30 characters. A longer one gives its first 30 characters plus `"..."`. With no user message it is `"新对话"`. It is at most 33 characters long. |
| Conversation.FindIndex | src/app.js:384 | `findIndex` returns the first index with the id. It returns none exactly when no entry has the id. |
| Conversation.Upsert | src/app.js:383-395 | A list of at most 20 stays at most 20 and contains the conversation afterwards. Distinct ids stay distinct. |
| Conversation.UpsertReplaces | src/app.js:384-386 | If the id is present, its first entry is replaced at the same index. The length and all other entries are unchanged. |
| Conversation.UpsertPrepends | src/app.js:387-395 | If the id is new, the conversation is at index 0 followed by the old list in order. A full list loses its last (oldest) entry. |
| Conversation.UpsertFindsConversation | src/app.js:383-395 | After an upsert, looking up the id finds the new conversation. |
| Conversation.Save | src/app.js:360-395 | Nothing changes while `model1`'s history is empty. A well-formed list stays well formed. Otherwise the result is `Upsert` of the session's snapshot into the list, so every other conversation is kept (see the two `Upsert` lemmas). Looking up the session's id afterwards finds the snapshot. |
| Conversation.Snapshot | src/app.js:372-381 | The record keeps the session's id, histories, system message, temperature, max tokens and models. It carries the given date and the title of `model1`'s history, at most 33 characters. |
| Conversation.RestoredMaxTokens | src/app.js:459 | A stored non-zero value is kept. A missing or zero value becomes 4096. |
| Conversation.Restore | src/app.js:442-464 | Id, histories, system message, temperature and selected models are the snapshot's. Max tokens is the snapshot's when it is non-zero, and 4096 when it is missing or zero. |
| Conversation.RestoreSnapshot | src/app.js:444-464 | Restoring a snapshot reproduces the state it was taken from. The exception is max tokens 0, which comes back as 4096. |
| Conversation.SnapshotRestore | src/app.js:372-381 | Saving right after restoring changes only the title, which is recomputed from `model1`, and max tokens, which is normalised. A snapshot the client made itself comes back unchanged. |
| App.UpsertEntries | src/app.js:383-395 | Every entry after an upsert is either the new conversation or was in the list before. |
| App.SaveKeepsWellFormed | src/app.js:360-395 | Saving a balanced session keeps the saved list bounded, id-unique and balanced. |
| App.Configured | src/app.js:582-606 | `checkApiConfig` passes exactly when both the stored base URL and the stored key are non-empty. |
| App.Start | src/app.js:608-642 | At page load there is a fresh session, the stored configuration and the stored list. With an incomplete configuration the default models and selections stay. With a complete one, the models are fetched from the stored configuration and each slot gets its default choice among them, so every slot is on an offered model. A well-formed stored list gives the invariant. |
| App.Request | src/app.js:253-255 | A slot's request names the slot's model and sends the system message followed by the slot's whole history, with the shared temperature and max tokens. |
| App.TurnShape | src/app.js:252-270 | A slot's history after a turn is the old history, then the user message, then the reply. The reply answers the request made of the system message and that slot's history including the user message. |
| App.SendMessage | src/app.js:226-273 | Blank input leaves the state unchanged. Otherwise each history grows by exactly the user message and then its slot's reply to `[system] ++ history`. Nothing else in the session or gateway changes. The conversation is saved, and its id then finds the new snapshot. |
| App.SendMessageKeepsInvariant | src/app.js:240-273 | A turn keeps the three histories of equal length (each grows by two) and the saved list bounded and id-unique. |
| App.FailedTurnNamesModel | src/app.js:252-270 | If the endpoint rejects this turn's request of a slot (rejected, not ok, or a 200 without a usable choice), that slot's history still grows by 2. It ends with an assistant message that names the slot's model. |
| App.EndsWithFailure | src/services/api.js:157-162 | A history that ends with the reply to any call `Complete` rejects ends with an assistant message naming the model. |
| App.SaveCurrentConversation | src/app.js:360-402 | Only the saved list changes, and it becomes `Save` of the session into the old list. An empty `model1` history saves nothing. Otherwise the session's id then finds its snapshot. The invariant is preserved. |
| App.LoadConversation | src/app.js:442-467 | The session becomes `Restore` of the conversation: its id, histories, system message, temperature and models, and its max tokens or 4096 when missing or zero. The saved list and gateway are untouched. Loading a saved entry keeps the invariant. |
| App.SaveThenLoad | src/app.js:360-464 | After saving, the current id is found in the list. Loading that entry gives back the live session when max tokens is non-zero. |
| App.NewConversation | src/app.js:492-504 | The current conversation is saved first. Then the histories are empty and the id is fresh. System message, temperature, max tokens and models are unchanged. The invariant is preserved. |
| App.IncreaseMaxTokens | src/app.js:206-211 | The result is `min(2m, 32000)`, so never above 32000. |
| App.DecreaseMaxTokens | src/app.js:213-218 | The result is `max(floor(m/2), 100)`, so never below 100. |
| App.MaxTokensButtons | src/app.js:206-218 | Both buttons keep a value in [100, 32000] inside that range. Each undoes the other away from the bounds. |
| App.EditSystemMessage | src/app.js:221-223 | The system prompt becomes the trimmed input, or the default prompt when the input is blank. The role and all else are unchanged. |
| App.ModelOptions | src/app.js:82 | The filter keeps only entries of type `"model"`. On descriptors from the gateway it is the identity. |
| App.DefaultChoice | src/app.js:110-123 | An offered current choice is kept, and so is any choice when there are no options. Otherwise the slot gets `options[index mod n]`. So with any option the result is always an offered id. |
| App.SelectModels | src/app.js:91-123 | Each picker gets its default choice. With options, all three selections are offered ids. |
| App.SelectModelsSpreads | src/app.js:110-118 | With 3 or more options and no current choice offered, the slots get the first, second and third option. |
| App.InitModelSelects | src/app.js:58-123 | The models are refreshed from the active endpoint and are never empty, so the refill at lines 73-79 never fires. Each slot gets its `DefaultChoice` among the refreshed models: its choice when offered, otherwise `options[index mod n]`. So every slot ends on an offered model. |
| App.SaveApiConfig | src/app.js:537-579 | It saves exactly when both trimmed fields are non-blank and `testAPIConfig` on the candidate's own endpoint lists at least one model. A rejection leaves the whole state unchanged. After a save, the configuration is the candidate and the models are fetched from its endpoint. Each slot gets its `DefaultChoice` among them, so every slot is on an offered model. The rest of the session is unchanged. |

## Left out

- DOM rendering and event wiring are not modelled because they are UI side effects. This
  covers `addMessageToUI`, `showLoading`/`removeLoading`, `updateHistoryList`,
  `initWelcomeMessages`, picker headers, the modal, alerts and listeners.
- `fetch`, `localStorage` and JSON are not modelled. Responses are input values. The
  stored configuration and list are the state's fields. Deep copies are value semantics.
- `Promise.all` concurrency is not modelled. A turn is one atomic transition. So the model
  does not cover loading or starting another conversation while a turn is pending. In the
  source that would append the late replies to the newly current histories.
- The `catch` branch of `handleSendMessage` (src/app.js:275-288) is left out. `CallModel`
  never fails, so the branch runs only when `saveCurrentConversation` throws in
  `localStorage.setItem` (src/app.js:398), for example when the storage quota is exceeded.
  By then the in-memory histories and saved list are already updated. The branch only
  writes an error notice to the three panels and changes no modelled state.
- The `catch` branch of `initModelSelects` (src/app.js:149-181) is left out because nothing
  in its `try` that the model covers can throw.
- The temperature slider (src/app.js:194-197) and the typed max-tokens field
  (src/app.js:200-203) are left out because they are `parseFloat`/`parseInt` parsing.
  Temperature is an opaque `real` with no arithmetic.
- `generateId` and dates are parameters because they come from the clock and randomness.
- The API modal's pre-filled default base URL (src/app.js:519) is left out because it is
  UI.
- `checkApiConfig`'s prompt message is left out because it is UI. Its test is
  `App.Configured`.
- server.js is left out because it is a static file server over Node I/O.
- String lengths count Unicode scalar values, while JavaScript counts UTF-16 code units.
  So titles with characters outside the BMP are cut at a different place.
- Remote messages are assumed to have a role of system, user or assistant and string
  content. Other roles and `null` content are not modelled.
- A `data` field that is truthy but not an array is not modelled. Neither is a failing
  `response.text()`.
- App.SaveApiConfig: its config check, `updateAPIConfig` and `initModelSelects` each fetch
  the model list. The model assumes the endpoint gives the same answer each time, because
  `listing` is a function of the configuration.

# Chat client state and agent endpoint: a Dafny model

This project models the client-side state and request orchestration of a chat UI.
The UI shows threaded exchanges between a user and a remote agent. It keeps its
conversations and messages in a remote row store, and it reloads them when the store
sends a change notification. The project also models the server handler that runs the
agent and assembles its reply.

What is modelled, by source file:

- `src/hooks/useConversations.js` → module `Conversations` (`conversations.dfy`). The
  class `ConversationCache` holds `conversations`, `loading`, `error` and whether the
  change channel is held. Each method is one hook operation, resumed with the store's
  answer. The store's ordered query is the function `ListNewestFirst`. The list
  operations `Patched` (the `map` of an update) and `Without` (the `filter` of a
  delete) are pure functions with lemmas about them.
- `src/hooks/useMessages.js` → module `Messages` (`messages.dfy`). The class
  `MessageCache` holds `scope`, `messages`, `loading`, `error` and the channels it
  holds. `loadMessages` is split at its await into `StartLoad` and `FinishLoad`. The
  split shows that nothing checks whether a late answer still belongs to the current
  scope. The store's filtered, ordered query is `SelectMessages`.
- `src/components/ChatInterface.jsx`, `handleSubmit` only → module `ChatInterface`
  (`chat_interface.dfy`). The class `ChatSession` holds `input`, `isLoading`, `error`
  and a log of what the handler asked of its collaborators (`effects`). A submitted
  turn is a `Turn` value that records where it is suspended. There is one method per
  await: `Submit`, `UserMessageSaved`, `TitleSaved`, `AgentAnswered`, `ReplySaved`.
  Between two steps, any other step may run, including a second `Submit`.
- `src/App.jsx` → module `App` (`app.dfy`). This covers the active-conversation lookup
  `FindById`, the re-selection rule after a delete `NextActive`, and the class
  `AppState` with the create, delete, select and sidebar handlers.
- `app/web_api.py` → module `AgentApi` (`agent_api.dfy`). This covers the request and
  response defaults, the step labels, the choice of the final response, and the error
  mapping of `run_agent`.
- Shared helpers: `Store` (`store.dfy`) has the store's reply shapes and an insertion
  sort by an integer key, which stands for the store's `order` clause. It also has the
  lemma that a sorted order is unique when keys tell rows apart. `Text` (`text.dfy`)
  has JavaScript's `trim` and `slice(0, n)`. `Wrappers` (`wrappers.dfy`) has `Option`.

The remote store, `fetch` and the agent are not modelled as I/O. Each awaited call is
a parameter holding what the call resolved to:

- `Answer<T>` stands for the `{ data, error }` pair of a query or insert.
- `Ack` stands for an update or delete.
- `FetchOutcome` stands for the agent call.
- `Construction` and `Run` stand for building and running the agent on the server.

Timestamps and creation times are opaque integers.

Behaviours of the code a reader might not expect, which the model keeps:

- A message load does not discard an answer that arrives after the scope changed
  (`StaleScopeLoad`).
- The message list is not cleared when the scope changes. It keeps the previous
  conversation's rows until the new load answers (`MessageCache.SetScope`).
- The in-flight guard is set only after the user message and the title writes have
  been awaited. So two quick submits both go through (`DoubleSubmit`).
- A failed message write during a submit is not reported by the session. It only sets
  the message hook's own `error`.
- An update of an id that matches no row is not an error. The store reports success
  and the patch changes nothing.
- The list is ordered by creation time only. There is no tie-break by id.
- Neither hook ever clears `error` after a later success.
- The server hands only the message text to the agent. It does not use `history` or
  `conversation_id`.

## Model

| member | source | states |
|---|---|---|
| `Conversations.ConversationCache.constructor` | src/hooks/useConversations.js:5-7 | The hook starts with an empty list, `loading` true, no error and no channel. |
| `Conversations.ConversationCache.Load` | src/hooks/useConversations.js:9-25 | A successful load replaces the list wholesale with the query result, or `[]` when the data is null, and leaves `error` as it was. A failed load keeps the list and sets `error` to the failure message. `loading` is false after either. |
| `Conversations.ConversationCache.Mount` | src/hooks/useConversations.js:27-44 | Mounting loads the list and leaves the change channel held. |
| `Conversations.ConversationCache.Unmount` | src/hooks/useConversations.js:41-43 | The cleanup releases the change channel. |
| `Conversations.ConversationCache.Changed` | src/hooks/useConversations.js:30-38 | Any notification on the held channel performs a full reload whose result depends only on the store's answer, never on the old list. Without the channel nothing changes. |
| `Conversations.ConversationCache.Create` | src/hooks/useConversations.js:46-62 | The inserted title defaults to "New Conversation". The store's row is returned on success. On failure it returns null and sets `error`. The list is never modified. |
| `Conversations.ConversationCache.Update` | src/hooks/useConversations.js:64-80 | On success the cached list becomes the patched list. On failure the list is unchanged and `error` is set. |
| `Conversations.ConversationCache.Delete` | src/hooks/useConversations.js:82-96 | On success the cached list becomes the list without the id. On failure the list is unchanged and `error` is set. |
| `Conversations.ListNewestFirst` | src/hooks/useConversations.js:11-14 | The query result is a permutation of the table's rows, ordered by `created_at` descending. |
| `Conversations.ListingIsUnique` | src/hooks/useConversations.js:11-18 | With distinct creation times, any two newest-first permutations of the same table are equal, so a repeated reload yields an identical list. |
| `Conversations.DuplicateNotifications` | src/hooks/useConversations.js:27-38 | Two notifications against an unchanged table leave the same list as one: the table's rows, each exactly as often as stored, newest first. |
| `Conversations.Patched` | src/hooks/useConversations.js:73-75 | The update keeps length, order, ids and creation times. Entries with other ids are unchanged. Entries with the id take the patch's title when it carries one. |
| `Conversations.PatchedIdempotent` | src/hooks/useConversations.js:73-75 | Applying the same update twice gives the same list as applying it once. |
| `Conversations.WithoutMembers` | src/hooks/useConversations.js:91 | After the delete filter no entry has the id, and every entry with another id is still present. |
| `Conversations.WithoutKeepsOrder` | src/hooks/useConversations.js:91 | The filter preserves relative order: filtering a concatenation concatenates the filtered parts. |
| `Conversations.WithoutAbsent` | src/hooks/useConversations.js:91 | Filtering an id that no entry has changes nothing. |
| `Conversations.WithoutIdempotent` | src/hooks/useConversations.js:91 | Deleting the same id again changes nothing. |
| `Messages.MessageCache.constructor` | src/hooks/useMessages.js:5-7 | The hook starts with no messages, `loading` true, no error and no channel. |
| `Messages.MessageCache.StartLoad` | src/hooks/useMessages.js:9-17 | With no conversation id (null or empty), `messages` becomes empty, `loading` false, and no query is issued. Otherwise `loading` becomes true and the current scope is queried, with the list left as it was. The held channel stays the current conversation's (`Valid`). |
| `Messages.MessageCache.FinishLoad` | src/hooks/useMessages.js:18-32 | A successful answer replaces `messages` with its rows, or `[]` when null. A failure keeps `messages` and sets `error`. `loading` ends false. Nothing compares the answer's scope with the current one. The held channel stays the current conversation's (`Valid`). |
| `Messages.MessageCache.SetScope` | src/hooks/useMessages.js:35-59 | On a scope change the previous channel is released before the new one is taken, so at most one channel is held, and it is the current conversation's. A load starts. The list is not cleared while that load is pending. |
| `Messages.MessageCache.Notify` | src/hooks/useMessages.js:40-53 | A notification on the held channel, which is the scoped conversation's, starts a full reload. A released channel delivers nothing. The held channel stays the current conversation's (`Valid`). |
| `Messages.MessageCache.AddMessage` | src/hooks/useMessages.js:61-82 | The written row is tagged with the current scope and carries the draft's role and content, with `metadata` defaulting to `{}`. On failure it returns null and sets `error`. The cached list is never touched. The held channel stays the current conversation's (`Valid`). |
| `Messages.SelectMessages` | src/hooks/useMessages.js:18-22 | The query result holds the rows of the scoped conversation, ordered by timestamp ascending. |
| `Messages.RowsOfCounts` | src/hooks/useMessages.js:21 | The `conversation_id` filter keeps each row of the scope exactly as often as the table holds it, and drops every other row. |
| `Messages.SelectedRows` | src/hooks/useMessages.js:18-22 | A reload holds exactly the scope's rows, with their multiplicities. |
| `Messages.SelectedMembers` | src/hooks/useMessages.js:18-22 | A row appears in a reload if and only if it is in the table and belongs to the scope. |
| `Messages.InsertedRowVisibleOnReload` | src/hooks/useMessages.js:18-26 | A stored message appears in the reload of its own conversation and of no other, so a reload is what makes it visible. |
| `Messages.StaleScopeLoad` | src/hooks/useMessages.js:9-59 | When the answer for conversation `a` arrives after the switch to `b`, the hook shows `a`'s messages while its scope is `b`. |
| `Text.Trim` | src/components/ChatInterface.jsx:34 | The trimmed text neither starts nor ends with whitespace. |
| `Text.TrimStartFacts` | src/components/ChatInterface.jsx:34 | Trimming the start removes only leading whitespace, and all of it. |
| `Text.TrimEndFacts` | src/components/ChatInterface.jsx:34 | Trimming the end removes only trailing whitespace, and all of it. |
| `Text.TrimIsInfix` | src/components/ChatInterface.jsx:34 | The trimmed text is a contiguous piece of the input, with only whitespace cut on either side. |
| `Text.TrimEmptyIff` | src/components/ChatInterface.jsx:27 | The guard `!input.trim()` holds exactly when the input is empty or all whitespace. |
| `Text.TrimIdempotent` | src/components/ChatInterface.jsx:34 | Trimming twice is the same as trimming once. |
| `Text.Slice` | src/components/ChatInterface.jsx:44 | `slice(0, n)` gives a prefix of length `min(len, n)`. |
| `ChatInterface.Title` | src/components/ChatInterface.jsx:44 | The new title is a prefix of the text, of length `min(len, 50)`. |
| `ChatInterface.TitleIdempotent` | src/components/ChatInterface.jsx:44 | Truncating a title again is a no-op. |
| `ChatInterface.AssistantDraft` | src/components/ChatInterface.jsx:71-75 | The assistant message has `content = data.response` and `steps = data.steps`, or `[]` when steps are absent. |
| `ChatInterface.ChatSession.constructor` | src/components/ChatInterface.jsx:12-14 | The view starts with empty input, not loading, and no error. |
| `ChatInterface.ChatSession.Type` | src/components/ChatInterface.jsx:156 | Typing sets the input. |
| `ChatInterface.ChatSession.Submit` | src/components/ChatInterface.jsx:25-40 | Blank input or `isLoading` means no write, no call and no state change. Without a conversation the handler only asks for a new one. Otherwise it saves the trimmed text as a user message and captures the conversation, the text, whether the list was empty, and the pre-submit list. `input`, `isLoading` and `error` are left untouched. |
| `ChatInterface.ChatSession.CallAgent` | src/components/ChatInterface.jsx:48-63 | The input is cleared, `isLoading` set and `error` reset. Then the agent is asked with the captured text and the pre-submit history, which lacks the new user message. |
| `ChatInterface.ChatSession.UserMessageSaved` | src/components/ChatInterface.jsx:37-50 | After the user write is awaited, a first message retitles the conversation, with `isLoading` still false. Any other message goes straight to the agent call. |
| `ChatInterface.ChatSession.TitleSaved` | src/components/ChatInterface.jsx:42-50 | Only after the title write is awaited are `isLoading` set, the input cleared, `error` reset and the agent called. |
| `ChatInterface.ChatSession.AgentAnswered` | src/components/ChatInterface.jsx:52-81 | A 2xx reply with a readable body appends exactly one assistant message. A non-ok status, an unreadable body or a rejection appends nothing, sets `error` to that error's message and clears `isLoading`. |
| `ChatInterface.ChatSession.ReplySaved` | src/components/ChatInterface.jsx:79-81 | The `finally` clears `isLoading` after the assistant write. |
| `ChatInterface.AnsweredFirstTurn` | src/components/ChatInterface.jsx:25-82 | A first turn that the agent answers makes four requests, in order: the user message, the retitle, the agent call with an empty history, and the assistant message. It ends idle with empty input and no error. |
| `ChatInterface.FailedTurn` | src/components/ChatInterface.jsx:25-82 | A failed agent call leaves only the user message written, sets `error`, and the next submit is accepted. |
| `ChatInterface.DoubleSubmit` | src/components/ChatInterface.jsx:27-49 | Two submits before the first user write completes both pass the guard, so two user messages are written and two agent calls are made. |
| `ChatInterface.BlankSubmit` | src/components/ChatInterface.jsx:27 | A whitespace-only input asks nothing of anyone. |
| `App.FindById` | src/App.jsx:12 | The lookup yields the first conversation whose id is the active id, or nothing exactly when no id matches. |
| `App.NextActive` | src/App.jsx:21-26 | Deleting a non-active conversation keeps the active id. Deleting the active one selects the first id of the pre-delete list, or null if that list is empty or the id is falsy. |
| `App.DeletedHeadStaysSelected` | src/App.jsx:23-24 | When the deleted active conversation heads the pre-delete list, the deleted id is re-selected, and after a successful delete the lookup finds nothing. |
| `App.ReplacementSurvivesDelete` | src/App.jsx:23-24 | When another conversation heads the list, it becomes active and the lookup finds it after the delete. |
| `App.AppState.constructor` | src/App.jsx:9-10 | No conversation is active and the sidebar is open. |
| `App.AppState.HandleCreate` | src/App.jsx:14-19 | A created conversation becomes active. A failed (null) create leaves the active id unchanged. The list is not touched. A failed create sets the hook's `error`, and a successful one leaves it as it was. |
| `App.AppState.HandleDelete` | src/App.jsx:21-26 | The active id follows `NextActive` over the pre-delete list, whether or not the delete succeeded. The list and the hook's `error` follow the delete's outcome: filtered with `error` kept, or kept with `error` set. After a successful delete of the active conversation, nothing is shown as active when it headed the list, and otherwise the former head is. |
| `App.AppState.Select` | src/App.jsx:33 | Selecting a conversation makes it active. |
| `App.AppState.ToggleSidebar` | src/App.jsx:37 | A toggle flips `sidebarOpen`. |
| `App.ToggleTwice` | src/App.jsx:37-42 | Toggling twice restores the original `sidebarOpen`. |
| `AgentApi.RequestFrom` | app/web_api.py:18-21 | An omitted `history` is the empty list. |
| `AgentApi.ResponseFrom` | app/web_api.py:24-26 | An omitted `steps` is the empty list. |
| `AgentApi.Decimal` | app/web_api.py:84 | `str(n)` is a non-empty string of decimal digits. |
| `AgentApi.DecimalRoundTrip` | app/web_api.py:84 | Reading back the digits of `str(n)` gives `n`. |
| `AgentApi.StepLabelInjective` | app/web_api.py:84 | Different step numbers give different step labels. |
| `AgentApi.BuildSteps` | app/web_api.py:82-84 | The step list has length `current_step`, or zero when that is negative, and element `i` is "Step {i+1} completed". |
| `AgentApi.FinalResponse` | app/web_api.py:86-93 | The response is the last memory message's content when that message is the assistant's and non-empty. Otherwise it is the raw `result`, including when memory is empty. |
| `AgentApi.RunAgent` | app/web_api.py:66-104 | A `FileNotFoundError` while constructing the agent gives 503 with the configuration detail. An `HTTPException` passes through unchanged. Any other exception gives 500 with `str(e)`. Otherwise the reply carries the final response and the step labels. |

## Left out

- JSX rendering, styling, icons and scrolling are not modelled. This includes the
  disabled state of the input and the button while `isLoading` is set: it is view code.
  It does not close the window before `isLoading` is set.
- The Supabase client, its realtime channels and `fetch` are not modelled as I/O. Their
  results are parameters. A channel is modelled only by its name and by whether this
  hook holds it.
- The hooks' `console.error` logging and the server's logging are not modelled. Neither
  is the FastAPI app setup (CORS, lifespan, the root and health endpoints, uvicorn).
- The `Manus` agent's internals are not modelled. How constructing and running it ended
  (`Construction`, `Run`) is an input, with its step counter and memory messages.
  `app.schema` is not part of this model. A memory message's content may be absent,
  and `if not final_response` treats that like an empty string.
- Real async interleaving is not modelled. Only the awaits of `handleSubmit` and the
  await of `loadMessages` are separate steps. The conversation hook's update and delete
  are one step each. In the source they patch the list captured when the call began,
  so a reload that lands during their await would be overwritten. The model does not
  show this.
- `Conversations.ConversationCache.Update`: the patch carries only `title`, the only
  field callers pass. A spread of other fields, such as an `id`, is not modelled.
- `Conversations.ListNewestFirst`: rows with equal `created_at` come back in one fixed
  order. The real store may order ties differently, which is why `ListingIsUnique`
  assumes distinct creation times.
- `ChatInterface.Title`: `slice(0, 50)` counts UTF-16 code units, and the model counts
  characters. The two differ only for characters outside the Basic Multilingual Plane.
- `ChatInterface.ChatSession.AgentAnswered`: the body's `response` is assumed present. A JSON
  body without it, or an `err.message` of a thrown non-`Error` value, is not modelled.
- Date formatting (`toLocaleDateString`, `toLocaleTimeString`) and timestamp
  generation are not modelled. Timestamps are opaque integers assigned by the store.
- `MessageItem.jsx`, `Sidebar.jsx` and `Header.jsx` are presentational and are not
  part of this model.

# AI agent conversation system: a verified model of its core

The system lets AI agents talk to one another about a topic. Each agent is an
LLM persona loaded from a registry.

The conversation service keeps a registry of active conversations. Each one
moves through a small lifecycle:

- **create** registers it idle.
- **start** writes a start message, sets it active and lets the first agent
  speak.
- **The autonomous loop** then lets the agents speak in round-robin order until
  the turn limit is reached, the conversation is stopped or ended, or the
  backend fails.
- **continue** runs one turn by hand.
- **stop**, **end** and **delete** close it down.

Around that core sit:

- an in-memory message memory, with history, per-agent and keyword queries;
- an in-memory snapshot store, with a backend fallback and exception-swallowing
  wrappers;
- the LLM client's prompt formatting and stream accumulation;
- the WebSocket connection list and the checks and patches of the HTTP routes;
- the terminal client's agent selection and message display;
- the log-size setting parser and the CORS origin list.

The model is written in Dafny, module by module:

| module | models |
|---|---|
| `Models` | the pydantic datatypes, with their defaults and bounds |
| `Lifecycle` | the lifecycle as pure functions of a conversation's mutable state: prompt, scheduler, turn limit, context window, one turn, start, continue, stop, end, the loop |
| `Conversations` | the service as a class; every method changes the registered `Conversation` object in place exactly as the lifecycle functions say |
| `Llm` | the LLM client; the backend is a scripted oracle (`Reply`) |
| `Memory` | `InMemoryStorage` |
| `MemoryServices` | `MemoryServiceFactory` and `MemoryService` |
| `Routes` | `ConnectionManager`, `message_callback`, and the create, update and get routes |
| `Cli` | `_select_agents` and the refresh of `monitor_conversation` |
| `LogSizes` | `LoggingService._parse_size` |
| `Cors` | the `origins` expression |
| `PyStrings`, `PySeqs`, `PyDicts`, `Wrappers` | the Python built-ins the code relies on: `strip`, `split`, `lstrip`, `upper`/`lower`, `int()`, `str()`, negative slicing, insertion-ordered dictionaries, exceptions as values |

Time is an integer parameter. Callbacks and WebSockets are opaque names. What
the service hands to callbacks and to the backend is recorded in the
`deliveries` and `requests` fields, so contracts can speak about it.

## Behaviour of the code the model keeps

- **create.** It computes `is_unlimited` but does not store it. The new
  conversation keeps `is_unlimited == False` and the unknown ids of the
  request (conversation_service.py:55-71).
- **start and continue.** Neither checks the status, so a stopped
  conversation still advances. A roster holding an unknown id makes
  `_create_system_prompt` raise AttributeError, because `agent_map.get(id, id)`
  returns the id string. Start and continue then fail on such a roster
  (`Lifecycle.AgentNames`).
- **The update route.** It patches the registered object but never saves it
  to the store.
- **The get route.** It names each message after the *first* agent with that
  id. The service looks agents up in a dictionary, where the *last* one wins.
  `Routes.FirstAgentNameIsLookup` shows the two agree when ids are distinct.
  System messages have no agent id and are shown as "Unknown".
- **`list.remove` in `disconnect`.** It raises ValueError for an unknown
  socket. The model returns that error rather than hiding it.

## Model

| member | source | states |
|---|---|---|
| Models.ParsePersonality | backend/app/models/agent.py:6-12 | exactly the six personality strings are accepted, each as the enum value that carries it |
| Models.PersonalityValuesInjective | backend/app/models/agent.py:6-12 | distinct personalities carry distinct strings |
| Models.NewAgent | backend/app/models/agent.py:15-22 | validation fails with ValueError iff the personality is not a known value; by default `avatar_url` is None and `is_active` is True |
| Models.NewAgentMessage | backend/app/models/agent.py:28-33 | metadata defaults to an empty map |
| Models.NewAgentState | backend/app/models/agent.py:36-42 | an energy level outside 0..10 fails validation; every other field takes its default |
| Models.DefaultAgentState | backend/app/models/agent.py:36-42 | the defaults: energy 5, mood "neutral", style "balanced", no topic, no last message time |
| Models.ParseStatus | backend/app/models/conversation.py:8-13 | exactly five status strings name an enum value |
| Models.StatusValueRoundTrip | backend/app/models/conversation.py:8-13 | parsing a status's string gives the status back |
| Models.NewMessage | backend/app/models/conversation.py:16-23 | a message has no agent id and no turn number, and is not streaming, unless given |
| Models.SystemMessage | backend/app/models/conversation.py:16-23 | a control message is spoken by "시스템", with no agent id and the given turn |
| Models.Conversation.WithDefaults | backend/app/models/conversation.py:26-43 | every field default: status "active", turn 0, ten turns, limited, no messages, no roster |
| Models.Conversation.constructor | backend/app/services/conversation_service.py:58-71 | the construction `create_conversation` performs: the request's fields, turn 0, empty log, `is_unlimited` left False |
| Models.NewConversationRequest | backend/app/models/conversation.py:49-53 | a request defaults to ten turns and no title |
| Models.EmptyUpdate | backend/app/models/conversation.py:63-66 | every field of an update is optional and absent by default |
| Lifecycle.LookupAgent | backend/app/services/conversation_service.py:120-122 | an id is found iff some agent holds it, and the agent found carries that id |
| Lifecycle.AgentIds | backend/app/api/routes.py:156 | one id per agent, in order (also the `agent_ids` of the request the terminal client builds, cli_app.py:155) |
| Lifecycle.AgentIdsKnown | backend/app/api/routes.py:156-161 | an id is among the registry's ids iff an agent holds it |
| Lifecycle.AgentNames | backend/app/services/conversation_service.py:346-348 | the participants' names, one per id, in order; an unknown id raises AttributeError |
| Lifecycle.SystemPrompt | backend/app/services/conversation_service.py:339-368 | a prompt is built iff there is a roster and it names only known agents; otherwise TypeError or AttributeError |
| Lifecycle.PromptReportsTurn | backend/app/services/conversation_service.py:342-343 | the prompt reports the turn as "무제한" exactly when the limit is not positive, else as `current/max` |
| Lifecycle.TurnInfo | backend/app/services/conversation_service.py:342-343 | the turn text of the prompt: "무제한" for a non-positive limit, else `current/max`; `PromptReportsTurn` proves its two cases |
| Lifecycle.PromptText | backend/app/services/conversation_service.py:350-368 | the prompt text: the topic, the turn text and the participants' names; `SystemPrompt` says when it is built |
| Lifecycle.SelectNextAgent | backend/app/services/conversation_service.py:378-387 | the next speaker is `agent_ids[current_turn mod len]`; a missing roster, an empty roster and an unknown id raise TypeError, ZeroDivisionError and KeyError |
| Lifecycle.ShouldEnd | backend/app/services/conversation_service.py:389-397 | a conversation ends iff its limit is positive and reached; a limit of 0 or less never ends one |
| Lifecycle.ContextWindow | backend/app/services/conversation_service.py:370-376 | the last `k` messages when `0 < k` is below the length, otherwise the whole log |
| Lifecycle.ToConversationCallbacks | backend/app/services/conversation_service.py:402-410 | each conversation callback is called once with the message, in registration order |
| Lifecycle.ToMessageCallbacks | backend/app/services/conversation_service.py:413-420 | each global callback is called once with the id and the message, in order |
| Lifecycle.Deliveries | backend/app/services/conversation_service.py:399-420 | the conversation's callbacks first, then every global one |
| Lifecycle.Fanout | backend/app/services/conversation_service.py:331 | the callback calls for one message of a conversation: its own callbacks, then the global ones, as `Deliveries` states |
| Lifecycle.StreamDeliveriesSnoc | backend/app/services/conversation_service.py:286-298 | each streamed update adds its callback calls after those of the earlier updates |
| Lifecycle.StreamDeliveries | backend/app/services/conversation_service.py:286-298 | the calls the stream callback makes, update by update; `StreamDeliveriesSnoc` and `StreamDeliveriesAreStreaming` state their order and shape |
| Lifecycle.Speak | backend/app/services/conversation_service.py:260-337 | one turn of `_agent_speak`: request, partial deliveries, and the answer appended or the error returned; `SpeakCases` and `SpeakEffect` state its cases |
| Lifecycle.SpeakCases | backend/app/services/conversation_service.py:260-337 | a turn sends the agent's prompt and the context window; on failure the state is unchanged and the error comes back; on success the answer is appended |
| Lifecycle.SpeakEffect | backend/app/services/conversation_service.py:315-325 | a turn appends exactly one message, the agent's, numbered `current_turn + 1`, and counts one turn; a failing turn changes nothing |
| Lifecycle.StreamDeliveriesAreStreaming | backend/app/services/conversation_service.py:286-298 | every partial delivered is marked streaming and numbered `current_turn + 1` |
| Lifecycle.StartState | backend/app/services/conversation_service.py:107-117 | start appends one control message with turn 0 and sets status active; nothing else changes |
| Lifecycle.StopState | backend/app/services/conversation_service.py:201-211 | stop sets status stopped whatever it was and appends one message numbered `current_turn + 1`; the turn stays |
| Lifecycle.EndState | backend/app/services/conversation_service.py:230-241 | end sets status ended and the end time, and appends one message numbered `current_turn + 1` |
| Lifecycle.Start | backend/app/services/conversation_service.py:104-133 | no prompt means nothing changes and false; otherwise the start message and the active status stay whether or not the first agent speaks |
| Lifecycle.StartCases | backend/app/services/conversation_service.py:104-133 | start has three ways out: no prompt, an empty roster (IndexError after the start message) or `agent_ids[0]`'s turn |
| Lifecycle.ContinueCases | backend/app/services/conversation_service.py:174-190 | continue has three ways out: the limit (end, false), a failing preparation (false), or the scheduled agent's turn |
| Lifecycle.Continue | backend/app/services/conversation_service.py:167-190 | `continue_conversation` on a registered conversation; its cases are `ContinueCases`, `ContinueAtLimit` and `ContinueTurn` |
| Lifecycle.ContinueAtLimit | backend/app/services/conversation_service.py:175-177 | at the limit continue ends the conversation without a turn and answers false |
| Lifecycle.ContinueTurn | backend/app/services/conversation_service.py:179-186 | below the limit, with a servable roster, it answers true and appends one message iff the backend answers |
| Lifecycle.ContinueIgnoresStatus | backend/app/services/conversation_service.py:167-190 | continue does not look at the status: a stopped conversation advances and stays stopped |
| Lifecycle.SpeakIgnoresStatus | backend/app/services/conversation_service.py:260-337 | a turn neither reads nor changes the status |
| Lifecycle.Prepare | backend/app/services/conversation_service.py:153-157 | a turn is prepared iff the prompt and the scheduled agent both exist |
| Lifecycle.AutoRunCases | backend/app/services/conversation_service.py:138-165 | one loop iteration, branch by branch: halt on stopped or ended, end at the limit, end on an exception, or one turn and go on |
| Lifecycle.AutoRun | backend/app/services/conversation_service.py:135-165 | the `while True` loop over a scripted backend; `AutoRunCases`, `AutoRunExits`, `AutoRunToLimit` and `UnlimitedNeverEnds` state what it does |
| Lifecycle.ResumesTrans | backend/app/services/conversation_service.py:138-161 | runs compose: what is done before a run that itself resumes adds up |
| Lifecycle.ResumesDone | backend/app/services/conversation_service.py:138-161 | a run that resumes with one that stops at once ends where that one ends |
| Lifecycle.StopHaltsLoop | backend/app/services/conversation_service.py:144-146 | after stop, the loop stops at once without a turn |
| Lifecycle.AutoRunExits | backend/app/services/conversation_service.py:135-165 | a halt changes nothing and an end leaves status ended; the loop never sets status error |
| Lifecycle.PrepareSucceeds | backend/app/services/conversation_service.py:378-387 | with a servable roster the scheduled agent is `agent_ids[current_turn mod len]` |
| Lifecycle.AnsweredTurn | backend/app/services/conversation_service.py:153-158 | with an answering backend, a loop turn appends the scheduled agent's message |
| Lifecycle.AnsweredStep | backend/app/services/conversation_service.py:138-161 | an answered iteration adds one scheduled turn message, and the loop goes on from there |
| Lifecycle.EndsAtLimit | backend/app/services/conversation_service.py:149-151 | at the limit the loop ends the conversation at once |
| Lifecycle.RanToLimitStep | backend/app/services/conversation_service.py:138-161 | a run that reaches the limit after one scheduled turn reaches it from before that turn |
| Lifecycle.AutoRunToLimit | backend/app/services/conversation_service.py:138-161 | with limit m and an answering backend, the loop runs the remaining turns round robin and then ends with the end message |
| Lifecycle.UnlimitedNeverEnds | backend/app/services/conversation_service.py:389-397 | a limit of 0 or less never ends the loop: every reply becomes a turn until the script runs out |
| Lifecycle.RanUnlimitedStep | backend/app/services/conversation_service.py:138-161 | one more turn of an unlimited run keeps the old messages first and the status unchanged |
| Lifecycle.CutOffWhenScriptEnds | backend/app/services/conversation_service.py:153-158 | with no reply left the loop stops before the turn, and nothing changes |
| Lifecycle.FailureEnds | backend/app/services/conversation_service.py:163-165 | a failing turn ends the conversation; the loop does not retry |
| Lifecycle.StartAnswered | backend/app/services/conversation_service.py:104-129 | with a servable roster and an answering backend, start answers true after the first agent's turn |
| Lifecycle.FirstTurnAnswered | backend/app/services/conversation_service.py:119-123 | `agent_ids[0]` speaks the first turn, numbered 1 |
| Lifecycle.StartThenRun | backend/app/services/conversation_service.py:87-165 | start then the loop, limit m > 0, answering backend: the start message, exactly m agent messages (message i by `agent_ids[i mod len]`), the end message, status ended |
| Lifecycle.RunAfterStart | backend/app/services/conversation_service.py:126-161 | the loop after start makes the turns up to the limit and then ends |
| Lifecycle.RanFromStart | backend/app/services/conversation_service.py:126-161 | the log after start and the loop is the start message, m round-robin turns and the end message |
| Conversations.SelectedAgents | backend/app/services/conversation_service.py:36-48 | the known requested agents, in request order; empty iff no requested id is known |
| Conversations.ConversationId | backend/app/services/conversation_service.py:51 | the id is `conv_<stamp>_<count>` |
| Conversations.AgentOf | backend/app/services/conversation_service.py:447-453 | one `agents.json` entry becomes the agent keyed by it, or ValueError for an unknown personality (as `NewAgent` states) |
| Conversations.BuiltAgents | backend/app/services/conversation_service.py:445-454 | the agents of all entries, in file order, iff every entry is a valid agent; ValueError otherwise |
| Conversations.AgentsFromFile | backend/app/services/conversation_service.py:434-460 | `[]` when reading the file raises or any entry is invalid; otherwise one agent per entry, in order, with the entry's key as its id |
| Conversations.ConversationService.constructor | backend/app/services/conversation_service.py:17-22 | nothing is registered, no callbacks exist, the memory backend is the one the settings resolve to, and the agents are those `agents.json` gives |
| Conversations.ConversationService.AddMessageCallback | backend/app/services/conversation_service.py:24-27 | the callback goes after the others; nothing else changes |
| Conversations.ConversationService.SelectAgents | backend/app/services/conversation_service.py:40-45 | the selection loop computes the known requested agents |
| Conversations.ConversationService.CreateConversation | backend/app/services/conversation_service.py:29-85 | ValueError with nothing changed iff no requested id is known; otherwise an idle conversation with the request's roster (unknown ids kept), turn 0 and an empty log is registered and saved under its id |
| Conversations.ConversationService.Save | backend/app/services/conversation_service.py:77 | saving a registered conversation leaves the store as it was |
| Conversations.ConversationService.CallConversationCallbacks | backend/app/services/conversation_service.py:402-410 | the calls are those of `ToConversationCallbacks` |
| Conversations.ConversationService.CallMessageCallbacks | backend/app/services/conversation_service.py:413-420 | the calls are those of `ToMessageCallbacks` |
| Conversations.ConversationService.ExecuteCallbacks | backend/app/services/conversation_service.py:399-420 | the calls are those of `Deliveries`; a callback that raises does not stop the others |
| Conversations.ConversationService.DeliverToConversation | backend/app/services/conversation_service.py:331 | the calls for one message of a conversation |
| Conversations.ConversationService.StreamToCallbacks | backend/app/services/conversation_service.py:286-298 | every streamed update reaches every callback as a streaming message |
| Conversations.ConversationService.AskBackend | backend/app/services/conversation_service.py:268-312 | the request holds the agent's prompt and the context window; partials reach the callbacks |
| Conversations.ConversationService.RecordAnswer | backend/app/services/conversation_service.py:314-331 | the answer is appended once and the turn counted, then the callbacks get it; the snapshot store is left as it was |
| Conversations.ConversationService.Append | backend/app/services/conversation_service.py:322-325 | one message appended and one turn counted |
| Conversations.ConversationService.AgentSpeak | backend/app/services/conversation_service.py:260-337 | one turn changes the registered conversation exactly as `Lifecycle.Speak` says; the snapshot store is left as it was |
| Conversations.ConversationService.Begin | backend/app/services/conversation_service.py:107-117 | the object changes exactly as `StartState` says |
| Conversations.ConversationService.Halt | backend/app/services/conversation_service.py:201-211 | the object changes exactly as `StopState` says |
| Conversations.ConversationService.Finish | backend/app/services/conversation_service.py:230-241 | the object changes exactly as `EndState` says |
| Conversations.ConversationService.RegisterCallback | backend/app/services/conversation_service.py:98-102 | a given callback goes last in the conversation's own list |
| Conversations.ConversationService.Open | backend/app/services/conversation_service.py:107-123 | the start message and active status, then `agent_ids[0]` speaks; an empty roster fails after the start message; the snapshot store is left as it was |
| Conversations.ConversationService.Launch | backend/app/services/conversation_service.py:104-133 | the object changes exactly as `Lifecycle.Start` says; the snapshot store is left as it was |
| Conversations.ConversationService.StartConversation | backend/app/services/conversation_service.py:87-133 | an unknown id answers false with nothing changed; otherwise the callback is registered and the run is as `Start` says; the snapshot store is left as it was |
| Conversations.ConversationService.StopConversation | backend/app/services/conversation_service.py:194-221 | true iff registered; the conversation takes the stop state and stays registered; the snapshot store is left as it was |
| Conversations.ConversationService.EndConversation | backend/app/services/conversation_service.py:223-258 | true iff registered; the conversation takes the end state and is dropped with its callbacks, so a second end answers false; the store is otherwise unchanged and, in memory, still holds the ended conversation under its id |
| Conversations.ConversationService.ContinueConversation | backend/app/services/conversation_service.py:167-190 | an unknown id answers false with nothing changed; otherwise the run is as `Continue` says, and at the limit the conversation is dropped; the snapshot store is left as it was |
| Conversations.ConversationService.AutoContinue | backend/app/services/conversation_service.py:135-165 | an unknown id stops at once; otherwise the run is as `AutoRun` says, and an end drops the conversation; the snapshot store is left as it was |
| Conversations.ConversationService.RunLoop | backend/app/services/conversation_service.py:138-165 | the `while True` loop leaves the conversation, requests and deliveries that `AutoRun` gives; the snapshot store is left as it was |
| Conversations.ConversationService.LoopTurn | backend/app/services/conversation_service.py:139-158 | one iteration either stops the loop, with exactly the run from here, or takes one answered turn; the snapshot store is left as it was |
| Conversations.ConversationService.SpeakOrEnd | backend/app/services/conversation_service.py:158-165 | one turn as `Speak` says; when it fails, the conversation is ended; the snapshot store is left as it was |
| Conversations.ConversationService.EndRun | backend/app/services/conversation_service.py:223-258 | end on a registered conversation: the end state, dropped with its callbacks; the store is otherwise unchanged and, in memory, still holds it |
| Conversations.ConversationService.GetConversation | backend/app/services/conversation_service.py:426-428 | a conversation iff registered, and it is the one under that id |
| Conversations.ConversationService.GetAllConversations | backend/app/services/conversation_service.py:430-432 | every registered conversation once, in registration order |
| Conversations.ConversationService.GetAgents | backend/app/services/conversation_service.py:434-460 | the loop over the entries of `agents.json` returns what `AgentsFromFile` states: every entry as an agent, or `[]` when anything raises |
| Conversations.ConversationService.DeleteConversation | backend/app/services/conversation_service.py:462-484 | true iff registered; then deleted from the store and dropped with its callbacks, and no message is written |
| Llm.Spoken | backend/app/services/llm_service.py:161-162 | only non-system messages, from the window |
| Llm.Transcript | backend/app/services/llm_service.py:161-163 | the vLLM transcript: one `speaker: content` line per non-system message; `TranscriptAppend` and `TranscriptSkipsSystem` state it |
| Llm.Formatted | backend/app/services/llm_service.py:151-186 | the formatted messages of either mode; `FormattedVllmShape`, `FormattedStandardShape` and `SystemMessageIgnored` state their shape |
| Llm.UserEntries | backend/app/services/llm_service.py:179-184 | one `user` entry `speaker: content` per non-system message, in order |
| Llm.FormatMessages | backend/app/services/llm_service.py:151-186 | the loops build the formatted request `Formatted` describes |
| Llm.VllmContent | backend/app/services/llm_service.py:158-163 | the prompt, a blank line, then one `speaker: content` line per non-system message |
| Llm.StandardEntries | backend/app/services/llm_service.py:179-184 | the loop builds the user entries |
| Llm.SpokenAppend | backend/app/services/llm_service.py:161-162 | filtering distributes over concatenation |
| Llm.TranscriptAppend | backend/app/services/llm_service.py:161-163 | the transcript of two runs is the two transcripts concatenated |
| Llm.UserEntriesAppend | backend/app/services/llm_service.py:179-184 | the entries of two runs are the two lists concatenated |
| Llm.SystemMessageContributesNothing | backend/app/services/llm_service.py:161-184 | a system message adds no line and no entry |
| Llm.TranscriptSkipsSystem | backend/app/services/llm_service.py:161-163 | a system message anywhere leaves the transcript unchanged |
| Llm.UserEntriesSkipSystem | backend/app/services/llm_service.py:179-184 | a system message anywhere leaves the entries unchanged |
| Llm.SystemMessageIgnored | backend/app/services/llm_service.py:151-186 | in either mode the formatted request is the same with or without a system message |
| Llm.FormattedVllmShape | backend/app/services/llm_service.py:156-169 | vLLM gets exactly one `user` entry |
| Llm.FormattedStandardShape | backend/app/services/llm_service.py:170-184 | a `system` entry comes first iff the prompt is non-empty, then one `user` entry per non-system message, in order |
| Llm.EntriesAfter | backend/app/services/llm_service.py:172-184 | the user entries keep their order after the system entry |
| Llm.AccumulateStream | backend/app/services/llm_service.py:131-145 | the loop returns the concatenation of the non-None deltas, with one update per delta |
| Llm.Accumulated | backend/app/services/llm_service.py:131-145 | the streamed text: the non-None deltas in order; `AccumulatedAppend` and `UpdatesArePrefixes` state it |
| Llm.AccumulatedAppend | backend/app/services/llm_service.py:133-136 | accumulation distributes over concatenation of streams |
| Llm.UpdatesArePrefixes | backend/app/services/llm_service.py:133-143 | each callback's full text is the previous one plus its chunk; the last is the result |
| Llm.EmptyUpdatesNothingAccumulated | backend/app/services/llm_service.py:131-145 | a stream with no callback accumulates nothing |
| Llm.EffectiveMaxTokens | backend/app/services/llm_service.py:68 | None or 0 falls back to the configured default |
| Llm.BuildRequest | backend/app/services/llm_service.py:56-80 | the request sent: the configured model, the formatted messages, the effective token limit and the streaming flag |
| Llm.Generate | backend/app/services/llm_service.py:47-149 | a plain call needs a whole answer; a stream returns the accumulated deltas; updates are delivered even when the stream raises |
| Llm.GenerateResponse | backend/app/services/llm_service.py:47-96 | the request is the formatted window in non-streaming mode; the answer or the failure is the backend's |
| Llm.GenerateResponseStream | backend/app/services/llm_service.py:98-149 | the request is the formatted window in streaming mode; the updates go to the callback in order |
| Llm.TestModel | backend/app/services/llm_service.py:241-250 | each provider's model, and "unknown" for any other provider |
| Memory.AnyKeywordIn | backend/app/models/memory.py:97 | true iff some keyword occurs in the content |
| Memory.Filter | backend/app/models/memory.py:80-98 | only matching stored entries are kept, and every matching one is kept |
| Memory.FilterIsSubsequence | backend/app/models/memory.py:80-98 | the kept entries keep their stored order |
| Memory.HistoryWindow | backend/app/models/memory.py:69-73 | a positive limit gives the newest `min(limit, n)` entries in stored order; 0 gives all |
| Memory.History | backend/app/models/memory.py:69-73 | `get_conversation_history`: [] for an unknown id, else the window `HistoryWindow` states |
| Memory.AgentMemory | backend/app/models/memory.py:75-84 | `get_agent_memory`: [] for an unknown id, else the agent's entries windowed, as `AgentMemoryEntries` states |
| Memory.RelevantContext | backend/app/models/memory.py:86-100 | `get_relevant_context`: the keyword-matching entries windowed, as `RelevantEntries` states |
| Memory.ReadsAreSubsequences | backend/app/models/memory.py:69-100 | every read result is a subsequence of the stored log |
| Memory.AgentMemoryEntries | backend/app/models/memory.py:75-84 | only the agent's entries come back, and with a large enough limit all of them |
| Memory.RelevantEntries | backend/app/models/memory.py:86-100 | an entry is returned iff some lower-cased topic word occurs in its lower-cased content, given a large enough limit |
| Memory.FilterNothing | backend/app/models/memory.py:97 | no keyword matches nothing |
| Memory.BlankTopicIsIrrelevant | backend/app/models/memory.py:93-100 | a blank topic gives no context |
| Memory.InMemoryStorage.constructor | backend/app/models/memory.py:51-53 | the store starts empty |
| Memory.InMemoryStorage.StoreMessage | backend/app/models/memory.py:55-67 | one entry at the end of that log, created if absent, context defaulting to `{}`; other logs unchanged |
| Memory.InMemoryStorage.GetConversationHistory | backend/app/models/memory.py:69-73 | an unknown conversation has no history; otherwise the window `History` describes |
| Memory.InMemoryStorage.GetAgentMemory | backend/app/models/memory.py:75-84 | an unknown conversation gives []; otherwise the agent's entries, windowed |
| Memory.InMemoryStorage.GetRelevantContext | backend/app/models/memory.py:86-100 | the scan loop keeps the entries `RelevantContext` describes |
| Memory.InMemoryStorage.ClearConversationMemory | backend/app/models/memory.py:102-105 | only that log goes; its history is then empty, and other logs are untouched |
| MemoryServices.CreateService | backend/app/services/memory_service.py:330-341 | the matching backend for "inmemory", "redis" or "postgresql", and ValueError for anything else |
| MemoryServices.ResolvedMemoryType | backend/app/services/memory_service.py:355-399 | any other type, or a backend that cannot be set up, falls back to "inmemory" |
| MemoryServices.Caught | backend/app/services/memory_service.py:401-451 | an exception becomes the fallback value |
| MemoryServices.MemoryService.constructor | backend/app/services/memory_service.py:351-353 | the type the setup settles on, and an empty store |
| MemoryServices.MemoryService.SaveToInmemory | backend/app/services/memory_service.py:454-457 | stored under its id, overwriting; reading it back gives it and the answer is True |
| MemoryServices.MemoryService.LoadFromInmemory | backend/app/services/memory_service.py:459-461 | the last conversation saved under the id, or None |
| MemoryServices.MemoryService.DeleteFromInmemory | backend/app/services/memory_service.py:463-476 | True and removed iff present; otherwise False with the store unchanged |
| MemoryServices.MemoryService.ListFromInmemory | backend/app/services/memory_service.py:478-480 | exactly the stored conversations, in insertion order |
| MemoryServices.MemoryService.SaveConversation | backend/app/services/memory_service.py:401-412 | the in-memory save, or the backend's answer with a failure turned into False |
| MemoryServices.MemoryService.LoadConversation | backend/app/services/memory_service.py:414-425 | the in-memory load, or the backend's answer with a failure turned into None |
| MemoryServices.MemoryService.DeleteConversation | backend/app/services/memory_service.py:427-438 | the in-memory delete, or the backend's answer with a failure turned into False |
| MemoryServices.MemoryService.ListConversations | backend/app/services/memory_service.py:440-451 | the in-memory list, or the backend's answer with a failure turned into [] |
| Routes.IndexOf | backend/app/api/routes.py:40 | the first position of the socket |
| Routes.RemoveAt | backend/app/api/routes.py:40 | one element fewer, exactly that one |
| Routes.RemoveFirst | backend/app/api/routes.py:25-26 | `list.remove`: ValueError iff absent, else one occurrence removed |
| Routes.Working | backend/app/api/routes.py:31-40 | exactly the connections whose send succeeds, in order |
| Routes.SweepIntended | backend/app/api/routes.py:31-40 | the intended broadcast reaches and keeps exactly the working connections |
| Routes.SweepAsWritten | backend/app/api/routes.py:31-40 | the as-written broadcast loop, removing from the list it walks; `SweepAsWrittenKeeps`, `SweepAsWrittenReaches` and `SweepAsWrittenSkips` state what it does |
| Routes.SweepAsWrittenKeeps | backend/app/api/routes.py:31-40 | as written, a broadcast adds no connection, keeps every working one, and reaches only working ones |
| Routes.SweepAsWrittenReaches | backend/app/api/routes.py:31-40 | as written, a broadcast reaches only working connections that were open |
| Routes.SweepAsWrittenSkips | backend/app/api/routes.py:33-40 | as written, the connection after a failing one is not reached |
| Routes.SweepAsWrittenWithoutFailures | backend/app/api/routes.py:31-40 | with no failure the broadcast reaches every connection and keeps the list |
| Routes.ConnectionManager.constructor | backend/app/api/routes.py:18-19 | no connections |
| Routes.ConnectionManager.Connect | backend/app/api/routes.py:21-23 | the socket goes last |
| Routes.ConnectionManager.Disconnect | backend/app/api/routes.py:25-26 | the first occurrence goes; an unknown socket raises ValueError with nothing changed |
| Routes.ConnectionManager.BroadcastAsWritten | backend/app/api/routes.py:31-40 | the loop that removes from the list it walks does what `SweepAsWritten` says |
| Routes.ConnectionManager.Broadcast | backend/app/api/routes.py:31-40 | the corrected broadcast: every working connection reached and kept, every failing one removed |
| Routes.BroadcastStep | backend/app/api/routes.py:33-40 | a failing connection is the first of its kind after the kept prefix |
| Routes.WorkingSnoc | backend/app/api/routes.py:31-40 | one more connection is kept iff it works |
| Routes.FirstAfter | backend/app/api/routes.py:40 | removing the first `x` skips a prefix without `x` |
| Routes.MessagePayload | backend/app/api/routes.py:45-64 | "stream_update" iff streaming, else "new_message"; the shown name is the speaker |
| Routes.StreamPayloads | backend/app/api/routes.py:45-64 | every streamed partial goes out as a "stream_update" of the coming turn |
| Routes.AnswerPayload | backend/app/api/routes.py:45-64 | an agent's answer goes out as a "new_message" under the agent's name and id |
| Routes.SelectedSnoc | backend/app/services/conversation_service.py:41-43 | a known last id adds its agent at the end |
| Routes.SelectedWhenAllKnown | backend/app/services/conversation_service.py:36-48 | when every id is known the service selects one agent per id, in order |
| Routes.FirstUnknown | backend/app/api/routes.py:160-165 | the position of the first unknown requested id, or none iff every id is known |
| Routes.CreateRoute | backend/app/api/routes.py:151-186 | 400 iff some requested id is unknown, before the service is called; 500 for an empty roster; otherwise the new conversation is described |
| Routes.Patched | backend/app/api/routes.py:247-255 | each supplied field replaces the stored one, metadata is merged, `updated_at` is refreshed; nothing else changes |
| Routes.PatchIdempotent | backend/app/api/routes.py:247-255 | applying the same update twice at the same time is applying it once |
| Routes.EmptyPatch | backend/app/api/routes.py:247-255 | an update that supplies nothing only refreshes the time |
| Routes.UpdateRoute | backend/app/api/routes.py:240-263 | 404 iff the id is not registered; otherwise the registered conversation is patched in place |
| Routes.ShownTurn | backend/app/api/routes.py:142 | a missing turn number is shown as 0 |
| Routes.FirstAgentName | backend/app/api/routes.py:143 | a message without an agent id is shown as "Unknown" |
| Routes.FirstAgentNameAt | backend/app/api/routes.py:143 | the name shown is that of the first agent with the id, or "Unknown" when none has it |
| Routes.FirstAgentNameIsLookup | backend/app/api/routes.py:143 | with distinct ids, the name shown is that of the agent the service looks up |
| Routes.View | backend/app/api/routes.py:138-144 | a view keeps the message's agent id and content |
| Routes.MessageViews | backend/app/api/routes.py:137-146 | one view per message, in order |
| Routes.ViewsOfTurns | backend/app/api/routes.py:138-144 | a control message is shown under "Unknown"; an agent's answer under that agent's name and turn |
| Routes.GetConversationRoute | backend/app/api/routes.py:121-148 | 404 iff the id is not registered; otherwise the conversation's fields and message views |
| Cors.Origins | backend/app/main.py:20-23 | exactly "*" gives ["*"]; otherwise the non-blank comma pieces, stripped, in order |
| Cors.OriginsShape | backend/app/main.py:22 | no origin is empty, has whitespace at its ends or holds a comma; there are at most commas + 1 of them |
| Cors.BlankOrigins | backend/app/main.py:22 | a setting of commas and whitespace allows no origin |
| PyStrings.SplitJoin | backend/app/main.py:22 | the pieces of a split joined back give the string |
| PyStrings.IntToStringRoundTrip | backend/app/services/logging_service.py:118 | `int(str(n)) == n` |
| LogSizes.Scaled | backend/app/services/logging_service.py:112-116 | a parse error passes through; a number is multiplied |
| LogSizes.ParseSize | backend/app/services/logging_service.py:108-118 | every failure is a ValueError |
| LogSizes.UpperWithSuffix | backend/app/services/logging_service.py:110-112 | upper-casing keeps a two-character suffix apart from the text before it |
| LogSizes.SuffixedParse | backend/app/services/logging_service.py:110-116 | a suffix that upper-cases to KB, MB or GB scales the text before it, in any case |
| LogSizes.KilobytesParse | backend/app/services/logging_service.py:111-112 | "nKB" is n·1024 bytes |
| LogSizes.MegaAndGigabytesParse | backend/app/services/logging_service.py:113-116 | "nMB" is n·1024² and "nGB" n·1024³ bytes |
| LogSizes.MegabyteIsKilobytes | backend/app/services/logging_service.py:111-116 | for the same digits MB is 1024 times KB, and both fail together |
| LogSizes.DigitEndParse | backend/app/services/logging_service.py:117-118 | text ending in a digit is parsed whole |
| LogSizes.PlainParse | backend/app/services/logging_service.py:117-118 | a number with no suffix is that number |
| LogSizes.BareSuffixFails | backend/app/services/logging_service.py:113-114 | "MB" alone is a ValueError |
| LogSizes.ByteSuffixFails | backend/app/services/logging_service.py:117-118 | "10B" is a ValueError |
| Cli.AgentsNamed | backend/app/cli/cli_app.py:202 | exactly the registry agents whose id was typed |
| Cli.AgentsNamedIsSubsequence | backend/app/cli/cli_app.py:202 | the selection keeps registry order |
| Cli.AgentsNamedCounts | backend/app/cli/cli_app.py:202 | repeated ids are collapsed: each agent is selected as often as it is registered, or not at all |
| Cli.AgentsNamedBySet | backend/app/cli/cli_app.py:202 | only which ids are typed matters |
| Cli.SelectOnce | backend/app/cli/cli_app.py:196-203 | one answer of the selection prompt; `SelectOnceAccepts`, `SelectionIsKnown` and `BlankSelection` state what it accepts |
| Cli.SelectOnceAccepts | backend/app/cli/cli_app.py:196-203 | an answer is accepted iff it strips to "0" or "all" or names only known agents; "0" and "all" select everyone |
| Cli.SelectionIsKnown | backend/app/cli/cli_app.py:200-202 | an accepted selection holds only registry agents, with known ids |
| Cli.BlankSelection | backend/app/cli/cli_app.py:200-202 | an answer of commas and blanks is accepted but selects nobody |
| Cli.SelectAgents | backend/app/cli/cli_app.py:195-204 | the prompt loop returns the first accepted answer's selection, having rejected every earlier answer |
| Cli.CreationRequest | backend/app/cli/cli_app.py:136-157 | a request is made iff the topic and the selection are non-empty |
| Cli.SelectionRequestIsValid | backend/app/cli/cli_app.py:143-157 | a request from an accepted selection names only, and at least one, known agent |
| Cli.BlankSelectionMakesNoRequest | backend/app/cli/cli_app.py:200-202 | a blank answer never reaches the service |
| Cli.Patterns | backend/app/cli/cli_app.py:444-465 | the twenty decorations, in list order |
| Cli.FirstMatch | backend/app/cli/cli_app.py:467-470 | a pattern found opens the content |
| Cli.FirstMatchIsFirst | backend/app/cli/cli_app.py:467-470 | none is found iff no pattern opens the content; otherwise the one found is the first in list order that does |
| Cli.FirstMatchAt | backend/app/cli/cli_app.py:467-470 | the first pattern that opens the content is found |
| Cli.FirstMatchNone | backend/app/cli/cli_app.py:467-470 | when no pattern opens the content, none is found |
| Cli.LongestMatch | backend/app/cli/cli_app.py:467-470 | a pattern found opens the content |
| Cli.LongestMatchIsLongest | backend/app/cli/cli_app.py:467-470 | none is found iff no pattern opens the content; otherwise the one found is at least as long as every one that does |
| Cli.CutPrefix | backend/app/cli/cli_app.py:467-470 | the matched pattern cut off and the rest stripped; `CutPrefixSlice` states it keeps a contiguous part |
| Cli.RemoveSpeakerPrefixAsWritten | backend/app/cli/cli_app.py:443-470 | the loop removes only the first matching pattern, then strips the rest |
| Cli.RemoveSpeakerPrefix | backend/app/cli/cli_app.py:443-470 | the corrected loop removes the longest matching pattern, then strips the rest |
| Cli.CutPrefixSlice | backend/app/cli/cli_app.py:467-470 | at most one pattern goes: what is left is a contiguous part of the content |
| Cli.LongPatternsAreBracketed | backend/app/cli/cli_app.py:444-465 | a pattern longer than the name plus "님: " is a bracketed one |
| Cli.DiffersAt | backend/app/cli/cli_app.py:468 | text that differs from a pattern does not open with it |
| Cli.TidyKeeps | backend/app/cli/cli_app.py:473 | text opening with none of `:`, `-`, `*` or a space is left alone |
| Cli.Tidy | backend/app/cli/cli_app.py:473 | the three `lstrip` calls; `TidyShape` and `TidyKeeps` state what they drop |
| Cli.NameShadowsHonorific | backend/app/cli/cli_app.py:449-473 | as written, the plain name shadows its "님" forms, so the text the monitor shows (`Shown`) still opens with "님" |
| Cli.NameOpensFirst | backend/app/cli/cli_app.py:449-460 | the bare name is the first pattern to open the name followed by "님" |
| Cli.HonorificSurvives | backend/app/cli/cli_app.py:469-473 | text opening with "님" still does after stripping and tidying |
| Cli.LongestRemovesHonorific | backend/app/cli/cli_app.py:443-473 | with the corrected removal (`ShownIntended`), a message opening with the name and "님: " shows only the tidied rest |
| Cli.TidyShape | backend/app/cli/cli_app.py:473 | tidying drops only leading characters, and what is left opens with neither `*` nor a space |
| Cli.Shown | backend/app/cli/cli_app.py:443-473 | the text printed for a message as written: the first matching pattern cut off, then tidied; `ShownIsSlice` and `NameShadowsHonorific` state it |
| Cli.ShownIntended | backend/app/cli/cli_app.py:443-473 | the corrected display: the longest matching pattern cut off, then tidied; `LongestRemovesHonorific` states it |
| Cli.ShownIsSlice | backend/app/cli/cli_app.py:443-473 | the text shown, first match removed, is a contiguous part of the message content |
| Cli.TidyCutSlice | backend/app/cli/cli_app.py:467-473 | cutting and tidying keep a contiguous part of the content |
| Cli.LineOf | backend/app/cli/cli_app.py:439-475 | the line printed for one message: its speaker and `Shown` of its content |
| Cli.Kept | backend/app/cli/cli_app.py:438 | no more messages are kept than arrived |
| Cli.KeptAppend | backend/app/cli/cli_app.py:436-438 | filtering two runs is filtering their concatenation |
| Cli.KeptSpeakers | backend/app/cli/cli_app.py:438 | exactly the non-system messages are kept |
| Cli.Printed | backend/app/cli/cli_app.py:436-475 | one line per kept message |
| Cli.PrintedAppend | backend/app/cli/cli_app.py:436-475 | printing two runs prints their concatenation |
| Cli.PrintedSpeakers | backend/app/cli/cli_app.py:436-475 | no line is from the system, and every non-system message gets one |
| Cli.Refreshed | backend/app/cli/cli_app.py:433-477 | the lines of the messages since the last count and the new count; `RefreshesPrintOnce` states each message is printed once |
| Cli.ShowMessage | backend/app/cli/cli_app.py:439-475 | the line printed for one message, with only the first matching pattern removed as the program does |
| Cli.Refresh | backend/app/cli/cli_app.py:433-477 | one refresh prints the messages from the last count on, skipping control messages, and moves the count to the new length |
| Cli.PrintNext | backend/app/cli/cli_app.py:436-475 | message `i` adds its line unless it is a control message |
| Cli.PrintedStep | backend/app/cli/cli_app.py:436-475 | printing one more message adds its line, unless it is a control message |
| Cli.RefreshesPrintOnce | backend/app/cli/cli_app.py:425-477 | across refreshes over a growing log, each new message is printed exactly once |

## Left out

- The Redis and PostgreSQL storage classes, the Redis and PostgreSQL branches
  of `MemoryService`, and conversation serialization are not modelled. They
  are foreign clients and JSON. What such a backend returns or raises is a
  `Foreign` parameter of the wrappers.
- asyncio is not modelled: `create_task`, `sleep` and the `Lock` of
  `InMemoryStorage`. Every operation runs atomically and in sequence, and the
  loop that `start_conversation` launches as a task is a separate call,
  `AutoContinue`.
- The real LLM client is not modelled: `_setup_client`,
  `chat.completions.create` and `test_connection`. Its answers are a scripted
  `Reply`; the loop consumes a finite script and stops with exit `CutOff`
  when the script runs out.
- Temperature and the other sampling parameters are floating point and are
  left out of `LlmRequest`.
- `datetime.now()` is an integer parameter. Message timestamps are left out.
- Logging, the log formatters and `config.py` are not modelled. Settings are
  parameters (`Config`, `LlmSettings`).
- `get_agents` reads `agents.json` on every call. Here what the read gives is
  one `Foreign` value fixed when the service is made, so every call returns
  the same agents; a file that changes while the service runs is not
  modelled. A missing field, an unreadable file and malformed JSON are one
  outcome (`Raised`), since each gives `[]`.
- The JSON-file rewrite inside `_delete_from_inmemory` is a file side effect
  and is not modelled.
- Python's `str.isspace`, `lower` and `upper` are restricted to ASCII.
- The route-level delete is not modelled: it calls the asynchronous
  `delete_conversation` without awaiting it, so it never deletes.
- `websocket_endpoint`, the start and stop routes, the list routes and the
  `HTTPException` plumbing are not modelled.
- The CLI menus, prompts, tables and `_get_turn_count` are not modelled.
  `Cli.SelectAgents` takes the typed answers as a list.
- The monitor's one-second polling and its status checks are not modelled;
  `Cli.Refresh` is one pass of its body.
- `message_callback`'s timestamp and JSON encoding are left out of `Payload`.
- `Message.is_streaming` is `Optional[bool]`. The model uses `bool`, since
  nothing sets it to None.
- backend/app/tests/test_services.py is not part of this model: it uses an
  `Agent.system_area` field that `Agent` does not have.
- `MemoryEntry.context` values are strings, not arbitrary JSON.
- The `metadata` fields of `AgentMessage`, `Conversation` and
  `ConversationUpdate` (`Dict[str, Any]`) are `map<string, string>`: their
  values are strings, not arbitrary JSON.
- The monitor prints what the code as written shows (`Cli.Shown`,
  `Cli.RemoveSpeakerPrefixAsWritten`). The corrected removal
  (`Cli.RemoveSpeakerPrefix`, `Cli.ShownIntended`) is the corrected half of
  the Finding and is not used by the monitor.
- Models.NewAgentState: only `energy_level` is validated, because the other
  fields take their defaults.
- LogSizes.ParseSize: its own contract states only that failures are
  ValueError. The values are stated by the lemmas beside it.
- Routes.FirstAgentName: its own contract covers only the missing id. The
  lookup is stated by `Routes.FirstAgentNameAt` and
  `Routes.FirstAgentNameIsLookup`.

## Findings

| source | as written | input that shows it | evidently intended | confidence | as-written member | corrected member |
|---|---|---|---|---|---|---|
| backend/app/api/routes.py:33-40 | `broadcast` removes a failing connection from the list it is iterating, so the next connection is skipped | connections [0, 1], send to 0 fails: 1 gets no message | every working connection receives the message; only failing ones are removed | not executed | Routes.SweepAsWrittenSkips | Routes.ConnectionManager.Broadcast |
| backend/app/cli/cli_app.py:443-470 | the bare `{agent_name}` pattern comes before the `{agent_name}님` forms, and the first match wins, so those forms are never removed | speaker "A", content "A님: x": shown as "님: x" | the whole decoration is removed, showing "x" | not executed | Cli.NameShadowsHonorific | Cli.LongestRemovesHonorific |

/**
 * The conversation service: the registry of active conversations, the
 * callbacks, and the operations create, start, continue, stop, end, delete and
 * the autonomous loop.  Each operation changes the registered conversation
 * object in place exactly as the lifecycle functions say.  The agents and the
 * settings are fixed when the service is made; what the service hands to
 * callbacks and to the LLM backend is recorded in `deliveries` and `requests`.
 */
module Conversations {
  import opened Wrappers
  import opened PyStrings
  import opened PySeqs
  import opened PyDicts
  import opened Models
  import opened Llm
  import opened Lifecycle
  import opened MemoryServices

  /** The requested agents that exist, in request order. */
  function SelectedAgents(agents: seq<Agent>, ids: seq<string>): (r: seq<Agent>)
    ensures |r| <= |ids|
    ensures forall a :: a in r ==> a in agents
    ensures r == [] <==> forall i :: 0 <= i < |ids| ==> !Known(agents, ids[i])
    decreases |ids|
  {
    if ids == [] then []
    else
      var rest := SelectedAgents(agents, ids[..|ids| - 1]);
      assert forall i :: 0 <= i < |ids| - 1 ==> ids[..|ids| - 1][i] == ids[i];
      match LookupAgent(agents, ids[|ids| - 1])
      case Some(a) => rest + [a]
      case None => rest
  }

  /**
   * One entry of the `agents` object of `agents.json`: its key, which becomes
   * the agent's id, and the four fields read from its value.  A missing field,
   * an unreadable file and malformed JSON all raise before any agent is
   * returned, so they are one outcome, `Raised`, of reading the file.
   */
  datatype AgentRecord = AgentRecord(key: string, name: string, personality: string, description: string, systemPrompt: string)

  /** `Agent(id=agent_id, name=..., personality=..., description=..., system_prompt=...)` for one entry. */
  function AgentOf(record: AgentRecord): Result<Agent> {
    NewAgent(record.key, record.name, record.personality, record.systemPrompt, record.description)
  }

  /** The agents of the entries, in file order; ValueError as soon as one entry is not a valid agent. */
  function BuiltAgents(records: seq<AgentRecord>): (r: Result<seq<Agent>>)
    ensures r.Ok? <==> forall i :: 0 <= i < |records| ==> AgentOf(records[i]).Ok?
    ensures r.Err? ==> r.error == ValueError
    ensures r.Ok? ==> |r.value| == |records| && forall i :: 0 <= i < |records| ==> AgentOf(records[i]) == Ok(r.value[i])
    decreases |records|
  {
    if records == [] then Ok([])
    else
      var init := records[..|records| - 1];
      assert forall i :: 0 <= i < |init| ==> init[i] == records[i];
      match BuiltAgents(init)
      case Err(e) => Err(e)
      case Ok(built) =>
        match AgentOf(records[|records| - 1])
        case Err(e) => Err(e)
        case Ok(a) => Ok(built + [a])
  }

  /**
   * What `get_agents` returns for what reading `agents.json` gave: every entry
   * as an agent, or no agent at all when reading the file or building any
   * entry raised.
   */
  function AgentsFromFile(file: Foreign<seq<AgentRecord>>): (r: seq<Agent>)
    ensures file.Raised? ==> r == []
    ensures file.Returned? && (exists i :: 0 <= i < |file.value| && AgentOf(file.value[i]).Err?) ==> r == []
    ensures file.Returned? && (forall i :: 0 <= i < |file.value| ==> AgentOf(file.value[i]).Ok?) ==>
      |r| == |file.value| && forall i :: 0 <= i < |r| ==> r[i].id == file.value[i].key && AgentOf(file.value[i]) == Ok(r[i])
  {
    match file
    case Raised => []
    case Returned(records) =>
      match BuiltAgents(records)
      case Ok(agents) => agents
      case Err(_) => []
  }

  /** The message of the ValueError `create_conversation` raises when no agent was selected. */
  const NoValidAgents: string := "유효한 에이전트가 없습니다."

  /** `f"conv_{stamp}_{count}"`: the time stamp and the number of registered conversations. */
  function ConversationId(stamp: string, count: nat): (id: string)
    ensures StartsWith(id, "conv_" + stamp + "_")
    ensures id[|"conv_" + stamp + "_"|..] == NatToString(count)
  {
    var prefix := "conv_" + stamp + "_";
    assert (prefix + NatToString(count))[..|prefix|] == prefix;
    prefix + NatToString(count)
  }

  class ConversationService {
    /** What reading `agents.json` gives; the file does not change while the service runs. */
    const agentsFile: Foreign<seq<AgentRecord>>
    /** The agents every `get_agents` call returns. */
    const agents: seq<Agent> := AgentsFromFile(agentsFile)
    const config: Config
    const memory: MemoryService
    var activeConversations: Dict<string, Conversation>
    var conversationCallbacks: map<string, seq<CallbackId>>
    var messageCallbacks: seq<CallbackId>
    /** Every callback call made so far, in order. */
    var deliveries: seq<Delivery>
    /** Every request sent to the LLM backend so far, in order. */
    var requests: seq<LlmRequest>

    /**
     * The registry lists each conversation under its own id, and with the
     * in-memory backend every registered conversation is the one stored under
     * its id, so saving it again changes nothing.
     */
    ghost predicate Valid()
      reads this, memory
    {
      && activeConversations.Valid()
      && memory.Valid()
      && (forall id :: id in activeConversations.entries ==> activeConversations.entries[id].id == id)
      && (memory.InMemory() ==> forall id :: id in activeConversations.entries ==>
            memory.conversations.Get(id) == Some(activeConversations.entries[id]))
    }

    /** `c` is the conversation registered under its id. */
    predicate Holds(c: Conversation)
      reads this
    {
      c.id in activeConversations.entries && activeConversations.entries[c.id] == c
    }

    /** The registered conversation of an id, as a frame. */
    function Registered(id: string): set<Conversation>
      reads this
    {
      if id in activeConversations.entries then {activeConversations.entries[id]} else {}
    }

    function CallbacksOf(id: string): seq<CallbackId>
      reads this
    {
      if id in conversationCallbacks then conversationCallbacks[id] else []
    }

    /** What the lifecycle of `c` depends on besides its own state. */
    function CtxOf(c: Conversation): Context
      reads this
    {
      Context(config, agents, c.id, c.topic, c.agentIds, CallbacksOf(c.id), messageCallbacks)
    }

    /** `ConversationService()`: nothing registered, and the memory backend the settings resolve to. */
    constructor (agentsFile: Foreign<seq<AgentRecord>>, config: Config, memoryType: string, clientReady: bool)
      ensures Valid() && fresh(memory)
      ensures this.agentsFile == agentsFile && this.config == config
      ensures memory.memoryType == ResolvedMemoryType(memoryType, clientReady)
      ensures activeConversations == EmptyDict() && conversationCallbacks == map[] && messageCallbacks == []
      ensures deliveries == [] && requests == []
    {
      this.agentsFile := agentsFile;
      this.config := config;
      memory := new MemoryService(memoryType, clientReady);
      activeConversations := EmptyDict();
      conversationCallbacks := map[];
      messageCallbacks := [];
      deliveries := [];
      requests := [];
    }

    /** `add_message_callback` */
    method AddMessageCallback(callback: CallbackId)
      modifies this
      ensures messageCallbacks == old(messageCallbacks) + [callback]
      ensures activeConversations == old(activeConversations) && conversationCallbacks == old(conversationCallbacks)
      ensures deliveries == old(deliveries) && requests == old(requests)
    {
      messageCallbacks := messageCallbacks + [callback];
    }

    /** The selection loop of `create_conversation`: the known requested agents, in request order. */
    method SelectAgents(ids: seq<string>) returns (selected: seq<Agent>)
      ensures selected == SelectedAgents(agents, ids)
    {
      selected := [];
      var i := 0;
      while i < |ids|
        invariant 0 <= i <= |ids|
        invariant selected == SelectedAgents(agents, ids[..i])
      {
        assert ids[..i + 1][..i] == ids[..i];
        var found := LookupAgent(agents, ids[i]);
        if found.Some? {
          selected := selected + [found.value];
        }
        i := i + 1;
      }
      assert ids[..i] == ids;
    }

    /**
     * `create_conversation`: ValueError when no requested id names a known
     * agent; otherwise a new idle conversation with the request's fields (its
     * roster keeps the unknown ids) is registered and saved under
     * `conv_{stamp}_{n}`, n the number of registered conversations, replacing
     * whatever was registered under that id.
     */
    method CreateConversation(request: ConversationRequest, stamp: string, now: int) returns (r: Result<Conversation>)
      requires Valid()
      modifies this, memory
      ensures Valid()
      ensures r.Err? <==> forall i :: 0 <= i < |request.agentIds| ==> !Known(agents, request.agentIds[i])
      ensures r.Err? ==> r.error == ValueError && activeConversations == old(activeConversations)
      ensures r.Err? ==> memory.conversations == old(memory.conversations)
      ensures r.Ok? ==> var c := r.value;
        && fresh(c)
        && c.id == ConversationId(stamp, |old(activeConversations.keys)|)
        && c.topic == request.topic && c.title == request.title && c.agentIds == Some(request.agentIds)
        && c.State() == ConversationState("idle", [], 0, request.maxTurns, map[], Some(now), None)
        && c.createdAt == now && !c.isUnlimited && c.agents == [] && c.agentStates == map[]
        && activeConversations == old(activeConversations).Set(c.id, c)
        && (memory.InMemory() ==> memory.conversations == old(memory.conversations).Set(c.id, c))
      ensures !memory.InMemory() ==> memory.conversations == old(memory.conversations)
      ensures conversationCallbacks == old(conversationCallbacks) && messageCallbacks == old(messageCallbacks)
      ensures deliveries == old(deliveries) && requests == old(requests)
    {
      var selected := SelectAgents(request.agentIds);
      if selected == [] {
        return Err(ValueError);
      }
      var id := ConversationId(stamp, |activeConversations.keys|);
      var c := new Conversation(id, request.topic, request.title, request.agentIds, request.maxTurns, "idle", now);
      ghost var store := memory.conversations;
      activeConversations := activeConversations.Set(id, c);
      var saved := memory.SaveConversation(c, Returned(true));
      if memory.InMemory() {
        forall other | other in activeConversations.entries
          ensures memory.conversations.Get(other) == Some(activeConversations.entries[other])
        {
          GetAfterSet(store, id, c, other);
        }
      }
      r := Ok(c);
    }

    /** `save_conversation` on a registered conversation: the store already holds it. */
    method Save(c: Conversation)
      requires Valid() && Holds(c)
      modifies memory
      ensures Valid()
      ensures memory.conversations == old(memory.conversations) && memory.memoryType == old(memory.memoryType)
    {
      if memory.InMemory() {
        SetSameValue(memory.conversations, c.id);
      }
      var saved := memory.SaveConversation(c, Returned(true));
    }

    /** The first half of `_execute_callbacks`: the conversation's own callbacks, in order. */
    method CallConversationCallbacks(conversationId: string, message: Message)
      modifies this
      ensures deliveries == old(deliveries) + ToConversationCallbacks(CallbacksOf(conversationId), message)
      ensures activeConversations == old(activeConversations) && conversationCallbacks == old(conversationCallbacks)
      ensures messageCallbacks == old(messageCallbacks) && requests == old(requests)
    {
      if conversationId in conversationCallbacks {
        var callbacks := conversationCallbacks[conversationId];
        var i := 0;
        while i < |callbacks|
          invariant 0 <= i <= |callbacks|
          invariant deliveries == old(deliveries) + ToConversationCallbacks(callbacks[..i], message)
          invariant activeConversations == old(activeConversations) && conversationCallbacks == old(conversationCallbacks)
          invariant messageCallbacks == old(messageCallbacks) && requests == old(requests)
        {
          deliveries := deliveries + [ConversationDelivery(callbacks[i], message)];
          assert callbacks[..i + 1][..i] == callbacks[..i];
          i := i + 1;
        }
        assert callbacks[..i] == callbacks;
      }
    }

    /** The second half of `_execute_callbacks`: every global callback, in order. */
    method CallMessageCallbacks(conversationId: string, message: Message)
      modifies this
      ensures deliveries == old(deliveries) + ToMessageCallbacks(messageCallbacks, conversationId, message)
      ensures activeConversations == old(activeConversations) && conversationCallbacks == old(conversationCallbacks)
      ensures messageCallbacks == old(messageCallbacks) && requests == old(requests)
    {
      var j := 0;
      while j < |messageCallbacks|
        invariant 0 <= j <= |messageCallbacks|
        invariant deliveries == old(deliveries) + ToMessageCallbacks(messageCallbacks[..j], conversationId, message)
        invariant activeConversations == old(activeConversations) && conversationCallbacks == old(conversationCallbacks)
        invariant messageCallbacks == old(messageCallbacks) && requests == old(requests)
      {
        deliveries := deliveries + [MessageDelivery(messageCallbacks[j], conversationId, message)];
        assert messageCallbacks[..j + 1][..j] == messageCallbacks[..j];
        j := j + 1;
      }
      assert messageCallbacks[..j] == messageCallbacks;
    }

    /** `_execute_callbacks`: a callback that raises is still called, and the rest run after it. */
    method ExecuteCallbacks(conversationId: string, message: Message)
      modifies this
      ensures deliveries == old(deliveries) + Deliveries(conversationId, CallbacksOf(conversationId), messageCallbacks, message)
      ensures activeConversations == old(activeConversations) && conversationCallbacks == old(conversationCallbacks)
      ensures messageCallbacks == old(messageCallbacks) && requests == old(requests)
    {
      CallConversationCallbacks(conversationId, message);
      ghost var first := deliveries;
      CallMessageCallbacks(conversationId, message);
      assert deliveries == old(deliveries) + (ToConversationCallbacks(CallbacksOf(conversationId), message) +
        ToMessageCallbacks(messageCallbacks, conversationId, message));
    }

    /** `_execute_callbacks(conversation.id, message)` */
    method DeliverToConversation(c: Conversation, message: Message)
      modifies this
      ensures deliveries == old(deliveries) + Fanout(old(CtxOf(c)), message)
      ensures activeConversations == old(activeConversations) && conversationCallbacks == old(conversationCallbacks)
      ensures messageCallbacks == old(messageCallbacks) && requests == old(requests)
    {
      ExecuteCallbacks(c.id, message);
    }

    /** The stream callback of `_agent_speak`: each update, as a streaming message, to every callback. */
    method StreamToCallbacks(c: Conversation, agent: Agent, updates: seq<StreamUpdate>)
      modifies this
      ensures deliveries == old(deliveries) + StreamDeliveries(old(CtxOf(c)), agent, c.currentTurn, updates)
      ensures activeConversations == old(activeConversations) && conversationCallbacks == old(conversationCallbacks)
      ensures messageCallbacks == old(messageCallbacks) && requests == old(requests)
    {
      ghost var ctx := CtxOf(c);
      var i := 0;
      while i < |updates|
        invariant 0 <= i <= |updates|
        invariant deliveries == old(deliveries) + StreamDeliveries(ctx, agent, c.currentTurn, updates[..i])
        invariant activeConversations == old(activeConversations) && conversationCallbacks == old(conversationCallbacks)
        invariant messageCallbacks == old(messageCallbacks) && requests == old(requests)
        invariant CtxOf(c) == ctx
      {
        var message := StreamMessage(agent, c.currentTurn, updates[i]);
        DeliverToConversation(c, message);
        StreamDeliveriesSnoc(ctx, agent, c.currentTurn, updates, i);
        assert deliveries == old(deliveries) + (StreamDeliveries(ctx, agent, c.currentTurn, updates[..i]) + Fanout(ctx, message));
        i := i + 1;
      }
      assert updates[..i] == updates;
    }

    /**
     * The backend call of `_agent_speak`: the agent's prompt and the context
     * window go to the streaming or the plain generation, and the streamed
     * partials to the callbacks.
     */
    method AskBackend(c: Conversation, agent: Agent, systemPrompt: string, reply: Reply)
      returns (request: LlmRequest, response: Result<string>)
      requires Valid() && Holds(c)
      modifies this
      ensures Valid() && Holds(c)
      ensures request == BuildRequest(config.llm, ContextWindow(c.messages, config.contextLimit),
        systemPrompt + "\n\n" + agent.systemPrompt, None, config.streaming)
      ensures response == Generate(reply, config.streaming).result
      ensures deliveries == old(deliveries) + StreamDeliveries(old(CtxOf(c)), agent, c.currentTurn, Generate(reply, config.streaming).updates)
      ensures activeConversations == old(activeConversations) && conversationCallbacks == old(conversationCallbacks)
      ensures messageCallbacks == old(messageCallbacks) && requests == old(requests) + [request]
    {
      var agentSystemPrompt := systemPrompt + "\n\n" + agent.systemPrompt;
      var contextMessages := ContextWindow(c.messages, config.contextLimit);
      if config.streaming {
        var updates: seq<StreamUpdate>;
        request, response, updates := GenerateResponseStream(config.llm, contextMessages, agentSystemPrompt, None, reply);
        ghost var ctx := CtxOf(c);
        StreamToCallbacks(c, agent, updates);
        assert CtxOf(c) == ctx;
      } else {
        request, response := GenerateResponse(config.llm, contextMessages, agentSystemPrompt, None, reply);
      }
      requests := requests + [request];
    }

    /** The end of `_agent_speak`: the answer appended, the turn counted, the conversation saved, the callbacks called. */
    method RecordAnswer(c: Conversation, agent: Agent, content: string) returns (message: Message)
      requires Valid() && Holds(c)
      modifies this, memory, c
      ensures Valid() && Holds(c)
      ensures memory.conversations == old(memory.conversations) && memory.memoryType == old(memory.memoryType)
      ensures message == AgentMessageFor(agent, content, old(c.currentTurn))
      ensures c.State() == old(c.State()).(messages := old(c.messages) + [message], currentTurn := old(c.currentTurn) + 1)
      ensures deliveries == old(deliveries) + Fanout(old(CtxOf(c)), message)
      ensures activeConversations == old(activeConversations) && conversationCallbacks == old(conversationCallbacks)
      ensures messageCallbacks == old(messageCallbacks) && requests == old(requests)
    {
      message := AgentMessageFor(agent, content, c.currentTurn);
      Append(c, message);
      Save(c);
      DeliverToConversation(c, message);
    }

    /** `conversation.messages.append(message)` and `conversation.current_turn += 1` */
    static method Append(c: Conversation, message: Message)
      modifies c
      ensures c.State() == old(c.State()).(messages := old(c.messages) + [message], currentTurn := old(c.currentTurn) + 1)
    {
      c.messages := c.messages + [message];
      c.currentTurn := c.currentTurn + 1;
    }

    /**
     * `_agent_speak`: one turn of `agent` in the registered conversation `c`,
     * as Speak describes it.
     */
    method AgentSpeak(c: Conversation, agent: Agent, systemPrompt: string, reply: Reply) returns (result: Result<Message>)
      requires Valid() && Holds(c)
      modifies this, memory, c
      ensures Valid() && Holds(c)
      ensures memory.conversations == old(memory.conversations) && memory.memoryType == old(memory.memoryType)
      ensures activeConversations == old(activeConversations) && conversationCallbacks == old(conversationCallbacks)
      ensures messageCallbacks == old(messageCallbacks)
      ensures var t := Speak(old(CtxOf(c)), old(c.State()), agent, systemPrompt, reply);
        && c.State() == t.state && result == t.result
        && deliveries == old(deliveries) + t.sent && requests == old(requests) + [t.request]
    {
      ghost var ctx := CtxOf(c);
      ghost var st := c.State();
      ghost var partials := StreamDeliveries(ctx, agent, st.currentTurn, Generate(reply, config.streaming).updates);
      var request, response := AskBackend(c, agent, systemPrompt, reply);
      SpeakCases(ctx, st, agent, systemPrompt, reply, request, response, partials);
      match response
      case Err(e) =>
        result := Err(e);
      case Ok(content) =>
        assert CtxOf(c) == ctx;
        var message := RecordAnswer(c, agent, content);
        AppendAssoc(old(deliveries), partials, Fanout(ctx, message));
        result := Ok(message);
    }

    /** The start message (turn 0) and the active status. */
    static method Begin(c: Conversation)
      modifies c
      ensures c.State() == StartState(old(c.State()), c.topic)
    {
      c.messages := c.messages + [SystemMessage(StartText(c.topic), 0)];
      c.status := "active";
    }

    /** The stopped status and the stop message, numbered one past the current turn. */
    static method Halt(c: Conversation)
      modifies c
      ensures c.State() == StopState(old(c.State()))
    {
      c.status := "stopped";
      c.messages := c.messages + [SystemMessage(StopText, c.currentTurn + 1)];
    }

    /** The ended status, the end time and the end message, numbered one past the current turn. */
    static method Finish(c: Conversation, now: int)
      modifies c
      ensures c.State() == EndState(old(c.State()), now)
    {
      c.status := "ended";
      c.endedAt := Some(now);
      c.messages := c.messages + [SystemMessage(EndText, c.currentTurn + 1)];
    }

    /** The callback registration of `start_conversation`: appended to the conversation's own list. */
    method RegisterCallback(conversationId: string, callback: Option<CallbackId>)
      requires Valid()
      modifies this
      ensures Valid()
      ensures conversationCallbacks == (if callback.Some? then old(conversationCallbacks)[conversationId := old(CallbacksOf(conversationId)) + [callback.value]]
                                        else old(conversationCallbacks))
      ensures activeConversations == old(activeConversations) && messageCallbacks == old(messageCallbacks)
      ensures deliveries == old(deliveries) && requests == old(requests)
    {
      if callback.Some? {
        conversationCallbacks := conversationCallbacks[conversationId := CallbacksOf(conversationId) + [callback.value]];
      }
    }

    /**
     * The part of `start_conversation` after the prompt is built: the start
     * message and the active status, then `agent_ids[0]` speaks.  An empty
     * roster raises IndexError after the start message is in.
     */
    method Open(c: Conversation, prompt: string, reply: Reply) returns (ok: bool)
      requires Valid() && Holds(c)
      requires c.agentIds.Some? && RosterKnown(agents, c.agentIds.value)
      modifies this, memory, c
      ensures Valid() && Holds(c)
      ensures memory.conversations == old(memory.conversations) && memory.memoryType == old(memory.memoryType)
      ensures activeConversations == old(activeConversations) && messageCallbacks == old(messageCallbacks)
      ensures conversationCallbacks == old(conversationCallbacks)
      ensures c.agentIds.value == [] ==>
        && c.State() == StartState(old(c.State()), c.topic) && !ok
        && deliveries == old(deliveries) && requests == old(requests)
      ensures c.agentIds.value != [] ==>
        var t := Speak(old(CtxOf(c)), StartState(old(c.State()), c.topic), LookupAgent(agents, c.agentIds.value[0]).value, prompt, reply);
        && c.State() == t.state && ok == t.result.Ok?
        && deliveries == old(deliveries) + t.sent && requests == old(requests) + [t.request]
    {
      Begin(c);
      var ids := c.agentIds.value;
      if |ids| == 0 {
        ok := false;
      } else {
        var first := LookupAgent(agents, ids[0]).value;
        var spoken := AgentSpeak(c, first, prompt, reply);
        ok := spoken.Ok?;
      }
    }

    /** `start_conversation` after the lookup and the registration, as Start says. */
    method Launch(c: Conversation, reply: Reply) returns (ok: bool)
      requires Valid() && Holds(c)
      modifies this, memory, c
      ensures Valid() && Holds(c)
      ensures memory.conversations == old(memory.conversations) && memory.memoryType == old(memory.memoryType)
      ensures activeConversations == old(activeConversations) && messageCallbacks == old(messageCallbacks)
      ensures conversationCallbacks == old(conversationCallbacks)
      ensures var r := Start(old(CtxOf(c)), old(c.State()), reply);
        && c.State() == r.state && ok == r.ok
        && deliveries == old(deliveries) + r.sent && requests == old(requests) + r.requests
    {
      StartCases(CtxOf(c), c.State(), reply);
      match SystemPrompt(CtxOf(c), c.State())
      case Err(_) =>
        ok := false;
      case Ok(prompt) =>
        ok := Open(c, prompt, reply);
    }

    /**
     * `start_conversation`: an unknown id is refused with nothing changed;
     * otherwise the callback is registered first, and then the conversation
     * goes as Start says, with the callbacks that now include it.
     */
    method StartConversation(conversationId: string, callback: Option<CallbackId>, reply: Reply) returns (ok: bool)
      requires Valid()
      modifies this, memory, Registered(conversationId)
      ensures Valid()
      ensures memory.conversations == old(memory.conversations) && memory.memoryType == old(memory.memoryType)
      ensures activeConversations == old(activeConversations) && messageCallbacks == old(messageCallbacks)
      ensures conversationId !in activeConversations.entries ==>
        && !ok && conversationCallbacks == old(conversationCallbacks)
        && deliveries == old(deliveries) && requests == old(requests)
      ensures conversationId in activeConversations.entries ==>
        var c := activeConversations.entries[conversationId];
        && conversationCallbacks == (if callback.Some? then old(conversationCallbacks)[conversationId := old(CallbacksOf(conversationId)) + [callback.value]]
                                     else old(conversationCallbacks))
        && var r := Start(CtxOf(c), old(c.State()), reply);
        && c.State() == r.state && ok == r.ok
        && deliveries == old(deliveries) + r.sent && requests == old(requests) + r.requests
    {
      var found := activeConversations.Get(conversationId);
      if found.None? {
        return false;
      }
      var c := found.value;
      RegisterCallback(conversationId, callback);
      ghost var ctx := CtxOf(c);
      ok := Launch(c, reply);
      assert CtxOf(c) == ctx;
    }

    /** `stop_conversation`: true iff the id is registered, and then the stop state is saved. */
    method StopConversation(conversationId: string) returns (ok: bool)
      requires Valid()
      modifies memory, Registered(conversationId)
      ensures Valid()
      ensures memory.conversations == old(memory.conversations) && memory.memoryType == old(memory.memoryType)
      ensures ok == (conversationId in activeConversations.entries)
      ensures ok ==> var c := activeConversations.entries[conversationId]; c.State() == StopState(old(c.State()))
    {
      var found := activeConversations.Get(conversationId);
      if found.None? {
        return false;
      }
      var c := found.value;
      Halt(c);
      Save(c);
      ok := true;
    }

    /**
     * `end_conversation`: true iff the id is registered; then the end state is
     * saved and the conversation and its callbacks are dropped from the service.
     */
    method EndConversation(conversationId: string, now: int) returns (ok: bool)
      requires Valid()
      modifies this, memory, Registered(conversationId)
      ensures Valid()
      ensures memory.conversations == old(memory.conversations) && memory.memoryType == old(memory.memoryType)
      ensures ok == (conversationId in old(activeConversations.entries))
      ensures ok ==> var c := old(activeConversations.entries[conversationId]);
        && c.State() == EndState(old(c.State()), now)
        && activeConversations == old(activeConversations).Remove(conversationId)
        && conversationCallbacks == old(conversationCallbacks) - {conversationId}
      ensures ok && memory.InMemory() ==>
        memory.conversations.Get(conversationId) == Some(old(activeConversations.entries[conversationId]))
      ensures !ok ==> activeConversations == old(activeConversations) && conversationCallbacks == old(conversationCallbacks)
      ensures messageCallbacks == old(messageCallbacks) && deliveries == old(deliveries) && requests == old(requests)
    {
      var found := activeConversations.Get(conversationId);
      if found.None? {
        return false;
      }
      var c := found.value;
      Finish(c, now);
      Save(c);
      activeConversations := activeConversations.Remove(conversationId);
      conversationCallbacks := conversationCallbacks - {conversationId};
      ok := true;
    }

    /**
     * `continue_conversation`: an unknown id is refused with nothing changed;
     * otherwise the conversation goes as Continue says, and at the limit it is
     * also dropped from the service with its callbacks.
     */
    method ContinueConversation(conversationId: string, reply: Reply, now: int) returns (ok: bool)
      requires Valid()
      modifies this, memory, Registered(conversationId)
      ensures Valid()
      ensures memory.conversations == old(memory.conversations) && memory.memoryType == old(memory.memoryType)
      ensures messageCallbacks == old(messageCallbacks)
      ensures conversationId !in old(activeConversations.entries) ==>
        && !ok && activeConversations == old(activeConversations) && conversationCallbacks == old(conversationCallbacks)
        && deliveries == old(deliveries) && requests == old(requests)
      ensures conversationId in old(activeConversations.entries) ==>
        var c := old(activeConversations.entries[conversationId]);
        var r := Continue(old(CtxOf(c)), old(c.State()), reply, now);
        && c.State() == r.state && ok == r.ok
        && deliveries == old(deliveries) + r.sent && requests == old(requests) + r.requests
        && (if ShouldEnd(old(c.currentTurn), old(c.maxTurns))
            then activeConversations == old(activeConversations).Remove(conversationId)
              && conversationCallbacks == old(conversationCallbacks) - {conversationId}
            else activeConversations == old(activeConversations) && conversationCallbacks == old(conversationCallbacks))
    {
      var found := activeConversations.Get(conversationId);
      if found.None? {
        return false;
      }
      var c := found.value;
      ContinueCases(CtxOf(c), c.State(), reply, now);
      if ShouldEnd(c.currentTurn, c.maxTurns) {
        var ended := EndConversation(conversationId, now);
        return false;
      }
      match Prepare(CtxOf(c), c.State())
      case Err(_) =>
        ok := false;
      case Ok(p) =>
        var spoken := AgentSpeak(c, p.agent, p.prompt, reply);
        ok := spoken.Ok?;
    }

    /**
     * `_auto_continue_conversation`, with the backend's replies scripted: an
     * unknown id stops the loop at once; otherwise the loop runs as AutoRun
     * says, and when it ends the conversation the conversation is also dropped
     * from the service with its callbacks.
     */
    method AutoContinue(conversationId: string, replies: seq<Reply>, now: int) returns (exit: Exit)
      requires Valid()
      modifies this, memory, Registered(conversationId)
      ensures Valid()
      ensures memory.conversations == old(memory.conversations) && memory.memoryType == old(memory.memoryType)
      ensures messageCallbacks == old(messageCallbacks)
      ensures conversationId !in old(activeConversations.entries) ==>
        && exit == Gone && activeConversations == old(activeConversations) && conversationCallbacks == old(conversationCallbacks)
        && deliveries == old(deliveries) && requests == old(requests)
      ensures conversationId in old(activeConversations.entries) ==>
        var c := old(activeConversations.entries[conversationId]);
        var r := AutoRun(old(CtxOf(c)), old(c.State()), replies, now);
        && c.State() == r.state && exit == r.exit
        && deliveries == old(deliveries) + r.sent && requests == old(requests) + r.requests
        && (exit == EndCalled ==>
              && activeConversations == old(activeConversations).Remove(conversationId)
              && conversationCallbacks == old(conversationCallbacks) - {conversationId})
        && (exit != EndCalled ==>
              activeConversations == old(activeConversations) && conversationCallbacks == old(conversationCallbacks))
    {
      var found := activeConversations.Get(conversationId);
      if found.None? {
        return Gone;
      }
      exit := RunLoop(found.value, replies, now);
    }

    /** The loop of `_auto_continue_conversation` on the registered conversation `c`. */
    method RunLoop(c: Conversation, replies: seq<Reply>, now: int) returns (exit: Exit)
      requires Valid() && Holds(c)
      modifies this, memory, c
      ensures Valid()
      ensures memory.conversations == old(memory.conversations) && memory.memoryType == old(memory.memoryType)
      ensures messageCallbacks == old(messageCallbacks)
      ensures var r := AutoRun(old(CtxOf(c)), old(c.State()), replies, now);
        && c.State() == r.state && exit == r.exit
        && deliveries == old(deliveries) + r.sent && requests == old(requests) + r.requests
      ensures exit == EndCalled ==>
        && activeConversations == old(activeConversations).Remove(c.id)
        && conversationCallbacks == old(conversationCallbacks) - {c.id}
      ensures exit != EndCalled ==>
        activeConversations == old(activeConversations) && conversationCallbacks == old(conversationCallbacks)
    {
      ghost var ctx := CtxOf(c);
      ghost var run := AutoRun(ctx, c.State(), replies, now);
      ghost var sentSoFar: seq<Delivery> := [];
      ghost var requestsSoFar: seq<LlmRequest> := [];
      var k := 0;
      while true
        invariant 0 <= k <= |replies|
        invariant Valid() && Holds(c) && CtxOf(c) == ctx
        invariant activeConversations == old(activeConversations) && conversationCallbacks == old(conversationCallbacks)
        invariant messageCallbacks == old(messageCallbacks)
        invariant memory.conversations == old(memory.conversations) && memory.memoryType == old(memory.memoryType)
        invariant deliveries == old(deliveries) + sentSoFar && requests == old(requests) + requestsSoFar
        invariant Resumes(run, requestsSoFar, sentSoFar, AutoRun(ctx, c.State(), replies[k..], now))
        decreases |replies| - k
      {
        ghost var before := AutoRun(ctx, c.State(), replies[k..], now);
        ghost var deliveriesBefore, requestsBefore := deliveries, requests;
        var stop, turnRequests, turnSent := LoopTurn(c, replies[k..], now);
        AppendAssoc(old(deliveries), sentSoFar, turnSent);
        AppendAssoc(old(requests), requestsSoFar, turnRequests);
        if stop.Some? {
          ResumesDone(run, requestsSoFar, sentSoFar, before, turnRequests, turnSent);
          return stop.value;
        }
        assert replies[k..][1..] == replies[k + 1..];
        ResumesTrans(run, requestsSoFar, sentSoFar, before, turnRequests, turnSent, AutoRun(ctx, c.State(), replies[k + 1..], now));
        sentSoFar := sentSoFar + turnSent;
        requestsSoFar := requestsSoFar + turnRequests;
        k := k + 1;
      }
    }

    /**
     * One iteration of the loop on the remaining script: either the loop stops
     * here, and the run from the old state is exactly what this iteration did,
     * or one answered turn is taken and the run goes on from the new state with
     * the rest of the script.
     */
    method LoopTurn(c: Conversation, remaining: seq<Reply>, now: int)
      returns (stop: Option<Exit>, ghost turnRequests: seq<LlmRequest>, ghost turnSent: seq<Delivery>)
      requires Valid() && Holds(c)
      modifies this, memory, c
      ensures Valid()
      ensures memory.conversations == old(memory.conversations) && memory.memoryType == old(memory.memoryType)
      ensures messageCallbacks == old(messageCallbacks)
      ensures deliveries == old(deliveries) + turnSent && requests == old(requests) + turnRequests
      ensures stop.Some? ==> AutoRun(old(CtxOf(c)), old(c.State()), remaining, now) == Run(c.State(), turnRequests, turnSent, stop.value)
      ensures stop.None? ==>
        && remaining != [] && Holds(c) && CtxOf(c) == old(CtxOf(c))
        && Resumes(AutoRun(old(CtxOf(c)), old(c.State()), remaining, now), turnRequests, turnSent,
                   AutoRun(old(CtxOf(c)), c.State(), remaining[1..], now))
      ensures stop == Some(EndCalled) ==>
        && activeConversations == old(activeConversations).Remove(c.id)
        && conversationCallbacks == old(conversationCallbacks) - {c.id}
      ensures stop != Some(EndCalled) ==>
        activeConversations == old(activeConversations) && conversationCallbacks == old(conversationCallbacks)
    {
      ghost var ctx := CtxOf(c);
      ghost var st := c.State();
      AutoRunCases(ctx, st, remaining, now);
      turnRequests, turnSent := [], [];
      if Halts(c.status) {
        return Some(Halted), turnRequests, turnSent;
      }
      if ShouldEnd(c.currentTurn, c.maxTurns) {
        EndRun(c, now);
        return Some(EndCalled), turnRequests, turnSent;
      }
      match Prepare(CtxOf(c), c.State())
      case Err(_) =>
        EndRun(c, now);
        stop := Some(EndCalled);
      case Ok(p) =>
        if remaining == [] {
          return Some(CutOff), turnRequests, turnSent;
        }
        ghost var t := Speak(ctx, st, p.agent, p.prompt, remaining[0]);
        var answered := SpeakOrEnd(c, p.agent, p.prompt, remaining[0], now);
        turnRequests, turnSent := [t.request], t.sent;
        stop := if answered then None else Some(EndCalled);
    }

    /** The turn of one loop iteration: `_agent_speak`, and `end_conversation` when it raises. */
    method SpeakOrEnd(c: Conversation, agent: Agent, prompt: string, reply: Reply, now: int) returns (answered: bool)
      requires Valid() && Holds(c)
      modifies this, memory, c
      ensures Valid()
      ensures memory.conversations == old(memory.conversations) && memory.memoryType == old(memory.memoryType)
      ensures var t := Speak(old(CtxOf(c)), old(c.State()), agent, prompt, reply);
        && answered == t.result.Ok?
        && deliveries == old(deliveries) + t.sent && requests == old(requests) + [t.request]
        && (answered ==> c.State() == t.state)
        && (!answered ==> c.State() == EndState(t.state, now))
      ensures messageCallbacks == old(messageCallbacks)
      ensures answered ==>
        && Holds(c) && CtxOf(c) == old(CtxOf(c))
        && activeConversations == old(activeConversations) && conversationCallbacks == old(conversationCallbacks)
      ensures !answered ==>
        && activeConversations == old(activeConversations).Remove(c.id)
        && conversationCallbacks == old(conversationCallbacks) - {c.id}
    {
      ghost var ctx := CtxOf(c);
      var spoken := AgentSpeak(c, agent, prompt, reply);
      answered := spoken.Ok?;
      if !answered {
        EndRun(c, now);
      } else {
        assert CtxOf(c) == ctx;
      }
    }

    /** `end_conversation` on the registered conversation `c`, as the loop calls it. */
    method EndRun(c: Conversation, now: int)
      requires Valid() && Holds(c)
      modifies this, memory, c
      ensures Valid()
      ensures memory.conversations == old(memory.conversations) && memory.memoryType == old(memory.memoryType)
      ensures c.State() == EndState(old(c.State()), now)
      ensures activeConversations == old(activeConversations).Remove(c.id)
      ensures conversationCallbacks == old(conversationCallbacks) - {c.id}
      ensures memory.InMemory() ==> memory.conversations.Get(c.id) == Some(c)
      ensures messageCallbacks == old(messageCallbacks) && deliveries == old(deliveries) && requests == old(requests)
    {
      var ended := EndConversation(c.id, now);
    }

    /** `get_conversation` */
    method GetConversation(conversationId: string) returns (r: Option<Conversation>)
      ensures r.Some? <==> conversationId in activeConversations.entries
      ensures r.Some? ==> r.value == activeConversations.entries[conversationId] && r.value.id == conversationId
      requires Valid()
    {
      r := activeConversations.Get(conversationId);
    }

    /** `get_all_conversations`: every registered conversation once, in registration order. */
    method GetAllConversations() returns (r: seq<Conversation>)
      requires Valid()
      ensures |r| == |activeConversations.keys|
      ensures forall i :: 0 <= i < |r| ==> r[i] == activeConversations.entries[activeConversations.keys[i]]
      ensures forall c :: c in r <==> c in activeConversations.entries.Values
    {
      r := activeConversations.Values();
      ValuesMembers(activeConversations);
    }

    /** `get_agents`: the entries of `agents.json` built one by one, and `[]` when anything raises. */
    method GetAgents() returns (r: seq<Agent>)
      ensures r == AgentsFromFile(agentsFile)
    {
      match agentsFile
      case Raised =>
        return [];
      case Returned(records) =>
        r := [];
        for i := 0 to |records|
          invariant BuiltAgents(records[..i]) == Ok(r)
        {
          assert records[..i + 1][..i] == records[..i];
          var built := AgentOf(records[i]);
          if built.Err? {
            return [];
          }
          r := r + [built.value];
        }
        assert records[..|records|] == records;
    }

    /**
     * `delete_conversation`: true iff the id is registered; then it is deleted
     * from the store and dropped from the service with its callbacks.  No
     * control message is written.
     */
    method DeleteConversation(conversationId: string) returns (ok: bool)
      requires Valid()
      modifies this, memory
      ensures Valid()
      ensures ok == (conversationId in old(activeConversations.entries))
      ensures ok ==> && activeConversations == old(activeConversations).Remove(conversationId)
                     && conversationCallbacks == old(conversationCallbacks) - {conversationId}
                     && (memory.InMemory() ==> memory.conversations == old(memory.conversations).Remove(conversationId))
      ensures !ok ==> && activeConversations == old(activeConversations) && conversationCallbacks == old(conversationCallbacks)
                      && memory.conversations == old(memory.conversations)
      ensures messageCallbacks == old(messageCallbacks) && deliveries == old(deliveries) && requests == old(requests)
    {
      var found := activeConversations.Get(conversationId);
      if found.None? {
        return false;
      }
      ghost var store := memory.conversations;
      var deleted := memory.DeleteConversation(conversationId, Returned(true));
      activeConversations := activeConversations.Remove(conversationId);
      conversationCallbacks := conversationCallbacks - {conversationId};
      ok := true;
      if memory.InMemory() {
        forall id | id in activeConversations.entries
          ensures memory.conversations.Get(id) == Some(activeConversations.entries[id])
        {
          GetAfterRemove(store, conversationId, id);
        }
      }
    }
  }
}

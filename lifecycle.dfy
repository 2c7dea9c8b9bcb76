/**
 * The rules of the conversation lifecycle as functions of a conversation's
 * state: the system prompt, the round-robin scheduler, the turn limit, the
 * context window, one agent turn, the control messages of start, stop and end,
 * and the autonomous loop run to its end.  The conversation service applies
 * exactly these to its registered conversations.
 */
module Lifecycle {
  import opened Wrappers
  import opened PyStrings
  import opened PySeqs
  import opened Models
  import opened Llm

  /** A registered callback, known by an opaque name. */
  type CallbackId = string

  /** One call of a callback: a conversation callback gets the message, a global one the id as well. */
  datatype Delivery =
    | ConversationDelivery(callback: CallbackId, message: Message)
    | MessageDelivery(callback: CallbackId, conversationId: string, message: Message)

  /** The settings the service reads. */
  datatype Config = Config(streaming: bool, contextLimit: int, llm: LlmSettings)

  /** What a turn of one conversation depends on besides the conversation's own mutable state. */
  datatype Context = Context(
    config: Config,
    agents: seq<Agent>,
    conversationId: string,
    topic: string,
    agentIds: Option<seq<string>>,
    conversationCallbacks: seq<CallbackId>,
    messageCallbacks: seq<CallbackId>)

  // ---------------------------------------------------------------- agents and prompts

  /** `{agent.id: agent for agent in agents}[id]`: a later agent with the same id wins. */
  function LookupAgent(agents: seq<Agent>, id: string): (r: Option<Agent>)
    ensures r.Some? <==> exists i :: 0 <= i < |agents| && agents[i].id == id
    ensures r.Some? ==> r.value.id == id && r.value in agents
    decreases |agents|
  {
    if agents == [] then None
    else if agents[|agents| - 1].id == id then Some(agents[|agents| - 1])
    else LookupAgent(agents[..|agents| - 1], id)
  }

  predicate Known(agents: seq<Agent>, id: string) {
    LookupAgent(agents, id).Some?
  }

  /** Every id of the roster names a known agent. */
  predicate RosterKnown(agents: seq<Agent>, ids: seq<string>) {
    forall i :: 0 <= i < |ids| ==> Known(agents, ids[i])
  }

  /** `[agent.id for agent in agents]` */
  function AgentIds(agents: seq<Agent>): (r: seq<string>)
    ensures |r| == |agents|
    ensures forall i :: 0 <= i < |agents| ==> r[i] == agents[i].id
  {
    seq(|agents|, i requires 0 <= i < |agents| => agents[i].id)
  }

  /** An id is among the registry's ids iff the registry knows an agent by it. */
  lemma AgentIdsKnown(agents: seq<Agent>, id: string)
    ensures id in AgentIds(agents) <==> Known(agents, id)
  {
    var ids := AgentIds(agents);
    if id in ids {
      var i :| 0 <= i < |ids| && ids[i] == id;
      assert agents[i].id == id;
    }
    if Known(agents, id) {
      var i :| 0 <= i < |agents| && agents[i].id == id;
      assert ids[i] == id;
    }
  }

  /**
   * The participants' names.  An unknown id makes `agent_map.get(id, id)` return
   * the id itself, a string, whose `.name` raises AttributeError.
   */
  function AgentNames(agents: seq<Agent>, ids: seq<string>): (r: Result<seq<string>>)
    ensures r.Ok? <==> RosterKnown(agents, ids)
    ensures r.Err? ==> r.error == AttributeError
    ensures r.Ok? ==> (|r.value| == |ids| &&
      forall i :: 0 <= i < |ids| ==> r.value[i] == LookupAgent(agents, ids[i]).value.name)
    decreases |ids|
  {
    if ids == [] then Ok([])
    else
      match LookupAgent(agents, ids[0])
      case None => Err(AttributeError)
      case Some(a) =>
        match AgentNames(agents, ids[1..])
        case Err(e) => Err(e)
        case Ok(rest) => Ok([a.name] + rest)
  }

  /** The turn line of the prompt: "무제한" for an unlimited conversation, else `current/max`. */
  function TurnInfo(currentTurn: int, maxTurns: int): string {
    if maxTurns <= 0 then "무제한" else IntToString(currentTurn) + "/" + IntToString(maxTurns)
  }

  /** The opening of the prompt, up to the topic. */
  const PromptIntro: string := "당신은 AI 대화 시스템의 참여자입니다.\n\n대화 정보:\n- 주제: "

  /** The conversation rules, from the end of the quoted topic in rule 1 to the last line. */
  const PromptRules: string :=
    "\"에 집중하여 관련성 있는 대화를 이어가세요\n" +
    "2. 다른 참여자의 발화에 적절히 반응하되, 주제에서 벗어나지 마세요\n" +
    "3. 주제와 관련된 깊이 있는 논의를 하세요\n" +
    "4. 무제한 대화인 경우 서두르지 말고 충분히 대화를 이어가세요\n" +
    "5. 자신의 이름을 반복해서 언급하지 마세요\n" +
    "6. 응답 시작에 이름을 붙이지 마세요 (예: \"몽키 D 루피:\", \"이마케팅:\" 등)\n" +
    "7. 자연스럽게 대화에 참여하세요\n\n" +
    "현재 대화 상황을 파악하고 주제에 맞는 적절한 응답을 생성하세요."

  function PromptHead(topic: string): string {
    PromptIntro + topic + "\n- 현재 턴: "
  }

  function PromptTail(topic: string, names: seq<string>): string {
    "\n- 참여자: " + JoinWith(names, ", ") + "\n\n대화 규칙:\n1. 주제 \"" + topic + PromptRules
  }

  /** The prompt text: topic, turn line and participants, then the rules. */
  function PromptText(topic: string, turnInfo: string, names: seq<string>): string {
    PromptHead(topic) + turnInfo + PromptTail(topic, names)
  }

  /**
   * `_create_system_prompt`.  Iterating a missing roster raises TypeError; an
   * unknown id raises AttributeError.
   */
  function SystemPrompt(ctx: Context, st: ConversationState): (r: Result<string>)
    ensures r.Ok? <==> ctx.agentIds.Some? && RosterKnown(ctx.agents, ctx.agentIds.value)
    ensures ctx.agentIds.None? ==> r == Err(TypeError)
    ensures ctx.agentIds.Some? && r.Err? ==> r.error == AttributeError
  {
    match ctx.agentIds
    case None => Err(TypeError)
    case Some(ids) =>
      match AgentNames(ctx.agents, ids)
      case Err(e) => Err(e)
      case Ok(names) => Ok(PromptText(ctx.topic, TurnInfo(st.currentTurn, st.maxTurns), names))
  }

  /** The prompt reports the turn: "무제한" exactly when the limit is not positive, else `current/max`. */
  lemma PromptReportsTurn(ctx: Context, st: ConversationState)
    requires SystemPrompt(ctx, st).Ok?
    ensures OccursAt(SystemPrompt(ctx, st).value, TurnInfo(st.currentTurn, st.maxTurns), |PromptHead(ctx.topic)|)
    ensures TurnInfo(st.currentTurn, st.maxTurns) == "무제한" <==> st.maxTurns <= 0
  {
    var p := SystemPrompt(ctx, st).value;
    var info := TurnInfo(st.currentTurn, st.maxTurns);
    var head := PromptHead(ctx.topic);
    var names := AgentNames(ctx.agents, ctx.agentIds.value).value;
    var tail := PromptTail(ctx.topic, names);
    assert p == head + info + tail;
    assert p[|head|..|head| + |info|] == info;
    if st.maxTurns > 0 {
      var s := IntToString(st.currentTurn);
      assert s[0] == '-' || IsDigit(s[0]);
      assert info[0] == s[0];
    }
  }

  // ---------------------------------------------------------------- scheduling

  /**
   * `_select_next_agent`: round robin over the roster.  A missing roster has no
   * length (TypeError), an empty one divides by zero, an unknown id is a KeyError.
   */
  function SelectNextAgent(agents: seq<Agent>, agentIds: Option<seq<string>>, currentTurn: int): (r: Result<Agent>)
    ensures agentIds.None? ==> r == Err(TypeError)
    ensures agentIds == Some([]) ==> r == Err(ZeroDivisionError)
    ensures agentIds.Some? && |agentIds.value| > 0 ==>
      var id := agentIds.value[currentTurn % |agentIds.value|];
      && (r.Ok? <==> Known(agents, id))
      && (r.Ok? ==> r.value == LookupAgent(agents, id).value && r.value.id == id)
      && (r.Err? ==> r.error == KeyError)
  {
    match agentIds
    case None => Err(TypeError)
    case Some(ids) =>
      if |ids| == 0 then Err(ZeroDivisionError)
      else
        match LookupAgent(agents, ids[currentTurn % |ids|])
        case None => Err(KeyError)
        case Some(a) => Ok(a)
  }

  /** `_should_end_conversation`: only a positive limit ends a conversation. */
  function ShouldEnd(currentTurn: int, maxTurns: int): (b: bool)
    ensures b <==> maxTurns > 0 && currentTurn >= maxTurns
    ensures maxTurns <= 0 ==> !b
  {
    var isUnlimited := maxTurns <= 0;
    if !isUnlimited then currentTurn >= maxTurns else false
  }

  /** `_create_context_messages`: the most recent `limit` messages, or all of them for a non-positive limit. */
  function ContextWindow(messages: seq<Message>, limit: int): (w: seq<Message>)
    ensures 0 < limit < |messages| ==> w == messages[|messages| - limit..]
    ensures limit >= |messages| ==> w == messages
    ensures limit <= 0 ==> w == messages
  {
    if limit > 0 then PyTail(messages, limit) else messages
  }

  // ---------------------------------------------------------------- one turn

  /** One call per conversation callback, in registration order. */
  function ToConversationCallbacks(callbacks: seq<CallbackId>, m: Message): (d: seq<Delivery>)
    ensures |d| == |callbacks|
    ensures forall i :: 0 <= i < |callbacks| ==> d[i] == ConversationDelivery(callbacks[i], m)
    decreases |callbacks|
  {
    if callbacks == [] then []
    else ToConversationCallbacks(callbacks[..|callbacks| - 1], m) + [ConversationDelivery(callbacks[|callbacks| - 1], m)]
  }

  /** One call per global callback, in registration order, with the conversation id. */
  function ToMessageCallbacks(callbacks: seq<CallbackId>, conversationId: string, m: Message): (d: seq<Delivery>)
    ensures |d| == |callbacks|
    ensures forall i :: 0 <= i < |callbacks| ==> d[i] == MessageDelivery(callbacks[i], conversationId, m)
    decreases |callbacks|
  {
    if callbacks == [] then []
    else ToMessageCallbacks(callbacks[..|callbacks| - 1], conversationId, m) + [MessageDelivery(callbacks[|callbacks| - 1], conversationId, m)]
  }

  /** `_execute_callbacks`: the conversation's callbacks in order, then every global callback. */
  function Deliveries(conversationId: string, conversationCallbacks: seq<CallbackId>, messageCallbacks: seq<CallbackId>, m: Message): (d: seq<Delivery>)
    ensures |d| == |conversationCallbacks| + |messageCallbacks|
    ensures forall i :: 0 <= i < |conversationCallbacks| ==> d[i] == ConversationDelivery(conversationCallbacks[i], m)
    ensures forall i :: 0 <= i < |messageCallbacks| ==>
      d[|conversationCallbacks| + i] == MessageDelivery(messageCallbacks[i], conversationId, m)
  {
    ToConversationCallbacks(conversationCallbacks, m) + ToMessageCallbacks(messageCallbacks, conversationId, m)
  }

  /** The callback calls for one message of the conversation of `ctx`. */
  function Fanout(ctx: Context, m: Message): seq<Delivery> {
    Deliveries(ctx.conversationId, ctx.conversationCallbacks, ctx.messageCallbacks, m)
  }

  /** The temporary message a stream callback broadcasts for one update. */
  function StreamMessage(agent: Agent, currentTurn: int, u: StreamUpdate): Message {
    Message(agent.name, u.full, Some(agent.id), Some(currentTurn + 1), true)
  }

  /** The deliveries of the stream updates, in order. */
  function StreamDeliveries(ctx: Context, agent: Agent, currentTurn: int, updates: seq<StreamUpdate>): seq<Delivery>
    decreases |updates|
  {
    if updates == [] then []
    else
      StreamDeliveries(ctx, agent, currentTurn, updates[..|updates| - 1]) +
        Fanout(ctx, StreamMessage(agent, currentTurn, updates[|updates| - 1]))
  }

  /** One more update adds its deliveries at the end. */
  lemma StreamDeliveriesSnoc(ctx: Context, agent: Agent, currentTurn: int, updates: seq<StreamUpdate>, i: nat)
    requires i < |updates|
    ensures StreamDeliveries(ctx, agent, currentTurn, updates[..i + 1]) ==
      StreamDeliveries(ctx, agent, currentTurn, updates[..i]) + Fanout(ctx, StreamMessage(agent, currentTurn, updates[i]))
  {
    assert updates[..i + 1][..i] == updates[..i];
  }

  /** A turn of one agent: the new state, the LLM request, the callback calls and the final message. */
  datatype Turn = Turn(state: ConversationState, request: LlmRequest, sent: seq<Delivery>, result: Result<Message>)

  /** The message an agent's answer becomes. */
  function AgentMessageFor(agent: Agent, content: string, currentTurn: int): Message {
    Message(agent.name, content, Some(agent.id), Some(currentTurn + 1), false)
  }

  /**
   * `_agent_speak`: the agent's prompt is the shared prompt, a blank line and
   * the agent's own prompt; the backend sees the context window; streamed
   * partials go to the callbacks only; the answer is appended and the turn
   * counted, then the callbacks get it.  A failing backend changes nothing.
   */
  function Speak(ctx: Context, st: ConversationState, agent: Agent, systemPrompt: string, reply: Reply): Turn {
    var agentPrompt := systemPrompt + "\n\n" + agent.systemPrompt;
    var window := ContextWindow(st.messages, ctx.config.contextLimit);
    var request := BuildRequest(ctx.config.llm, window, agentPrompt, None, ctx.config.streaming);
    var g := Generate(reply, ctx.config.streaming);
    var partials := StreamDeliveries(ctx, agent, st.currentTurn, g.updates);
    match g.result
    case Err(e) => Turn(st, request, partials, Err(e))
    case Ok(content) =>
      var m := AgentMessageFor(agent, content, st.currentTurn);
      Turn(st.(messages := st.messages + [m], currentTurn := st.currentTurn + 1), request, partials + Fanout(ctx, m), Ok(m))
  }

  /** One turn in terms of what the backend returned: the request made, the partials streamed, the answer. */
  lemma SpeakCases(ctx: Context, st: ConversationState, agent: Agent, systemPrompt: string, reply: Reply,
                   request: LlmRequest, response: Result<string>, partials: seq<Delivery>)
    requires request == BuildRequest(ctx.config.llm, ContextWindow(st.messages, ctx.config.contextLimit),
      systemPrompt + "\n\n" + agent.systemPrompt, None, ctx.config.streaming)
    requires response == Generate(reply, ctx.config.streaming).result
    requires partials == StreamDeliveries(ctx, agent, st.currentTurn, Generate(reply, ctx.config.streaming).updates)
    ensures response.Err? ==> Speak(ctx, st, agent, systemPrompt, reply) == Turn(st, request, partials, Err(response.error))
    ensures response.Ok? ==>
      var m := AgentMessageFor(agent, response.value, st.currentTurn);
      Speak(ctx, st, agent, systemPrompt, reply) ==
        Turn(st.(messages := st.messages + [m], currentTurn := st.currentTurn + 1), request, partials + Fanout(ctx, m), Ok(m))
  {
  }

  /** The reply a backend that works gives in the configured mode. */
  predicate Answers(cfg: Config, reply: Reply) {
    if cfg.streaming then reply.Deltas? && reply.completes else reply.Whole?
  }

  /**
   * A turn appends exactly one message, the agent's, numbered one past the
   * current turn, and counts one turn; nothing else in the state changes.  A
   * failing turn changes nothing.  Streamed partials are delivered, never appended.
   */
  lemma SpeakEffect(ctx: Context, st: ConversationState, agent: Agent, systemPrompt: string, reply: Reply)
    ensures var t := Speak(ctx, st, agent, systemPrompt, reply);
      && (t.result.Ok? <==> Answers(ctx.config, reply))
      && (t.result.Ok? ==>
            && t.result.value.agentId == Some(agent.id)
            && t.result.value.speaker == agent.name
            && t.result.value.turnNumber == Some(st.currentTurn + 1)
            && !t.result.value.isStreaming
            && t.state == st.(messages := st.messages + [t.result.value], currentTurn := st.currentTurn + 1))
      && (t.result.Err? ==> t.state == st)
      && (forall i :: 0 <= i < |t.state.messages| ==> t.state.messages[i] in st.messages || !t.state.messages[i].isStreaming)
  {
  }

  /** Every partial a streaming turn delivers is marked as streaming and carries the turn's number. */
  lemma {:induction false} StreamDeliveriesAreStreaming(ctx: Context, agent: Agent, currentTurn: int, updates: seq<StreamUpdate>, i: int)
    requires 0 <= i < |StreamDeliveries(ctx, agent, currentTurn, updates)|
    ensures StreamDeliveries(ctx, agent, currentTurn, updates)[i].message.isStreaming
    ensures StreamDeliveries(ctx, agent, currentTurn, updates)[i].message.turnNumber == Some(currentTurn + 1)
    decreases |updates|
  {
    var d := StreamDeliveries(ctx, agent, currentTurn, updates);
    var init := StreamDeliveries(ctx, agent, currentTurn, updates[..|updates| - 1]);
    if i < |init| {
      StreamDeliveriesAreStreaming(ctx, agent, currentTurn, updates[..|updates| - 1], i);
      assert d[i] == init[i];
    } else {
      var m := StreamMessage(agent, currentTurn, updates[|updates| - 1]);
      var f := Fanout(ctx, m);
      assert d[i] == f[i - |init|];
      if i - |init| < |ctx.conversationCallbacks| {
        assert f[i - |init|] == ConversationDelivery(ctx.conversationCallbacks[i - |init|], m);
      } else {
        var j := i - |init| - |ctx.conversationCallbacks|;
        assert f[|ctx.conversationCallbacks| + j] == MessageDelivery(ctx.messageCallbacks[j], ctx.conversationId, m);
      }
    }
  }

  // ---------------------------------------------------------------- control messages

  const StartPrefix: string := "대화가 시작되었습니다. 주제: "
  function StartText(topic: string): string { StartPrefix + topic }
  const StopText: string := "대화가 중지되었습니다."
  const EndText: string := "대화가 종료되었습니다."

  /** What `start_conversation` does before the first agent speaks: the start message (turn 0), and status active. */
  function StartState(st: ConversationState, topic: string): (r: ConversationState)
    ensures r.messages == st.messages + [SystemMessage(StartText(topic), 0)]
    ensures r.status == "active" && r.currentTurn == st.currentTurn
    ensures r == st.(messages := r.messages, status := "active")
  {
    st.(messages := st.messages + [SystemMessage(StartText(topic), 0)], status := "active")
  }

  /** `stop_conversation`: status stopped whatever it was, one stop message, the turn unchanged. */
  function StopState(st: ConversationState): (r: ConversationState)
    ensures r.status == "stopped"
    ensures r.messages == st.messages + [SystemMessage(StopText, st.currentTurn + 1)]
    ensures r == st.(messages := r.messages, status := "stopped")
  {
    st.(status := "stopped", messages := st.messages + [SystemMessage(StopText, st.currentTurn + 1)])
  }

  /** `end_conversation` on the conversation itself: status ended, end time, one end message. */
  function EndState(st: ConversationState, now: int): (r: ConversationState)
    ensures r.status == "ended" && r.endedAt == Some(now)
    ensures r.messages == st.messages + [SystemMessage(EndText, st.currentTurn + 1)]
    ensures r == st.(messages := r.messages, status := "ended", endedAt := Some(now))
  {
    st.(status := "ended", endedAt := Some(now), messages := st.messages + [SystemMessage(EndText, st.currentTurn + 1)])
  }

  // ---------------------------------------------------------------- start

  /** What start or continue did: the state, the requests, the callback calls, and its answer. */
  datatype Outcome = Outcome(state: ConversationState, requests: seq<LlmRequest>, sent: seq<Delivery>, ok: bool)

  /**
   * `start_conversation` on a registered conversation: nothing happens if the
   * prompt cannot be built; otherwise the start message and the active status
   * stay whether or not the first agent, `agent_ids[0]`, manages to speak.
   */
  function Start(ctx: Context, st: ConversationState, reply: Reply): (r: Outcome)
    ensures SystemPrompt(ctx, st).Err? ==> r == Outcome(st, [], [], false)
    ensures SystemPrompt(ctx, st).Ok? ==> r.state.status == "active"
    ensures SystemPrompt(ctx, st).Ok? ==> (|r.state.messages| >= |st.messages| + 1 &&
      r.state.messages[..|st.messages| + 1] == st.messages + [SystemMessage(StartText(ctx.topic), 0)])
  {
    match SystemPrompt(ctx, st)
    case Err(_) => Outcome(st, [], [], false)
    case Ok(prompt) =>
      var started := StartState(st, ctx.topic);
      var ids := ctx.agentIds.value;
      if |ids| == 0 then Outcome(started, [], [], false)
      else
        var first := LookupAgent(ctx.agents, ids[0]).value;
        var t := Speak(ctx, started, first, prompt, reply);
        assert t.state.messages[..|started.messages|] == started.messages;
        Outcome(t.state, [t.request], t.sent, t.result.Ok?)
  }

  /** Start in terms of its three ways out: no prompt, no first agent, or the first agent's turn. */
  lemma StartCases(ctx: Context, st: ConversationState, reply: Reply)
    ensures SystemPrompt(ctx, st).Err? ==> Start(ctx, st, reply) == Outcome(st, [], [], false)
    ensures SystemPrompt(ctx, st).Ok? ==> ctx.agentIds.Some?
    ensures SystemPrompt(ctx, st).Ok? && ctx.agentIds.value == [] ==>
      Start(ctx, st, reply) == Outcome(StartState(st, ctx.topic), [], [], false)
    ensures SystemPrompt(ctx, st).Ok? && ctx.agentIds.value != [] ==>
      && Known(ctx.agents, ctx.agentIds.value[0])
      && var t := Speak(ctx, StartState(st, ctx.topic), LookupAgent(ctx.agents, ctx.agentIds.value[0]).value,
                        SystemPrompt(ctx, st).value, reply);
      Start(ctx, st, reply) == Outcome(t.state, [t.request], t.sent, t.result.Ok?)
  {
  }

  // ---------------------------------------------------------------- continue

  /**
   * `continue_conversation` on a registered conversation: at the limit it ends
   * the conversation and answers false; otherwise one turn, true iff the agent
   * answered.  The status is not consulted.
   */
  function Continue(ctx: Context, st: ConversationState, reply: Reply, now: int): Outcome {
    if ShouldEnd(st.currentTurn, st.maxTurns) then Outcome(EndState(st, now), [], [], false)
    else
      match Prepare(ctx, st)
      case Err(_) => Outcome(st, [], [], false)
      case Ok(p) =>
        var t := Speak(ctx, st, p.agent, p.prompt, reply);
        Outcome(t.state, [t.request], t.sent, t.result.Ok?)
  }

  /** Continue in terms of its three ways out: the limit, a failed preparation, or the scheduled agent's turn. */
  lemma ContinueCases(ctx: Context, st: ConversationState, reply: Reply, now: int)
    ensures ShouldEnd(st.currentTurn, st.maxTurns) ==> Continue(ctx, st, reply, now) == Outcome(EndState(st, now), [], [], false)
    ensures !ShouldEnd(st.currentTurn, st.maxTurns) && Prepare(ctx, st).Err? ==> Continue(ctx, st, reply, now) == Outcome(st, [], [], false)
    ensures !ShouldEnd(st.currentTurn, st.maxTurns) && Prepare(ctx, st).Ok? ==>
      var p := Prepare(ctx, st).value;
      var t := Speak(ctx, st, p.agent, p.prompt, reply);
      Continue(ctx, st, reply, now) == Outcome(t.state, [t.request], t.sent, t.result.Ok?)
  {
  }

  /** At the limit, continue ends the conversation without a turn. */
  lemma ContinueAtLimit(ctx: Context, st: ConversationState, reply: Reply, now: int)
    requires st.maxTurns > 0 && st.currentTurn >= st.maxTurns
    ensures var r := Continue(ctx, st, reply, now);
      && !r.ok && r.requests == [] && r.sent == []
      && r.state == EndState(st, now) && r.state.status == "ended"
  {
  }

  /**
   * Below the limit, with a roster the scheduler can serve, continue runs the
   * scheduled agent's turn: true and one turn message iff the backend answers,
   * and the state untouched otherwise.
   */
  lemma ContinueTurn(ctx: Context, st: ConversationState, reply: Reply, now: int)
    requires GoodRoster(ctx) && st.currentTurn >= 0 && !ShouldEnd(st.currentTurn, st.maxTurns)
    ensures var r := Continue(ctx, st, reply, now);
      && |r.requests| == 1
      && (r.ok <==> Answers(ctx.config, reply))
      && (r.ok ==> (&& |r.state.messages| == |st.messages| + 1
                    && r.state == st.(messages := st.messages + [r.state.messages[|st.messages|]], currentTurn := st.currentTurn + 1)
                    && IsTurnMessage(ctx, r.state.messages[|st.messages|], st.currentTurn)))
      && (!r.ok ==> r.state == st)
  {
    PrepareSucceeds(ctx, st);
    var p := Prepare(ctx, st).value;
    SpeakEffect(ctx, st, p.agent, p.prompt, reply);
    if Answers(ctx.config, reply) {
      AnsweredTurn(ctx, st, reply);
    }
  }

  /** Continue does not look at the status: a stopped conversation goes on, and keeps its status. */
  lemma ContinueIgnoresStatus(ctx: Context, st: ConversationState, reply: Reply, now: int, status: string)
    requires !ShouldEnd(st.currentTurn, st.maxTurns)
    ensures var r := Continue(ctx, st, reply, now);
      var s := Continue(ctx, st.(status := status), reply, now);
      && s.ok == r.ok && s.requests == r.requests && s.sent == r.sent
      && s.state == r.state.(status := status)
  {
    var st2 := st.(status := status);
    assert SystemPrompt(ctx, st2) == SystemPrompt(ctx, st);
    assert SelectNextAgent(ctx.agents, ctx.agentIds, st2.currentTurn) == SelectNextAgent(ctx.agents, ctx.agentIds, st.currentTurn);
    if Prepare(ctx, st).Ok? {
      var p := Prepare(ctx, st).value;
      SpeakIgnoresStatus(ctx, st, p.agent, p.prompt, reply, status);
    }
  }

  lemma SpeakIgnoresStatus(ctx: Context, st: ConversationState, agent: Agent, systemPrompt: string, reply: Reply, status: string)
    ensures var t := Speak(ctx, st, agent, systemPrompt, reply);
      var t2 := Speak(ctx, st.(status := status), agent, systemPrompt, reply);
      t2 == t.(state := t.state.(status := status))
  {
  }

  // ---------------------------------------------------------------- the autonomous loop

  /**
   * Why the loop stopped: the conversation is no longer registered, its status
   * is stopped or ended, end was called, or no reply is left in the script.
   */
  datatype Exit = Gone | Halted | EndCalled | CutOff

  datatype Run = Run(state: ConversationState, requests: seq<LlmRequest>, sent: seq<Delivery>, exit: Exit)

  /** The prompt and the agent of the next turn, or the exception building them raises. */
  datatype Prepared = Prepared(prompt: string, agent: Agent)

  function Prepare(ctx: Context, st: ConversationState): (r: Result<Prepared>)
    ensures r.Ok? ==> (SystemPrompt(ctx, st) == Ok(r.value.prompt) &&
      SelectNextAgent(ctx.agents, ctx.agentIds, st.currentTurn) == Ok(r.value.agent))
    ensures r.Err? ==> SystemPrompt(ctx, st).Err? || SelectNextAgent(ctx.agents, ctx.agentIds, st.currentTurn).Err?
  {
    match SystemPrompt(ctx, st)
    case Err(e) => Err(e)
    case Ok(prompt) =>
      match SelectNextAgent(ctx.agents, ctx.agentIds, st.currentTurn)
      case Err(e) => Err(e)
      case Ok(agent) => Ok(Prepared(prompt, agent))
  }

  predicate Halts(status: string) { status == "stopped" || status == "ended" }

  /**
   * `_auto_continue_conversation` for a registered conversation, with the
   * backend's replies scripted: each iteration halts on a stopped or ended
   * status, ends the conversation at the turn limit, and otherwise runs one
   * turn; any exception ends the conversation.
   */
  function AutoRun(ctx: Context, st: ConversationState, replies: seq<Reply>, now: int): Run
    decreases |replies|
  {
    if Halts(st.status) then Run(st, [], [], Halted)
    else if ShouldEnd(st.currentTurn, st.maxTurns) then Run(EndState(st, now), [], [], EndCalled)
    else
      match Prepare(ctx, st)
      case Err(_) => Run(EndState(st, now), [], [], EndCalled)
      case Ok(p) =>
        if replies == [] then Run(st, [], [], CutOff)
        else
          var t := Speak(ctx, st, p.agent, p.prompt, replies[0]);
          if t.result.Err? then Run(EndState(t.state, now), [t.request], t.sent, EndCalled)
          else
            var rest := AutoRun(ctx, t.state, replies[1..], now);
            Run(rest.state, [t.request] + rest.requests, t.sent + rest.sent, rest.exit)
  }

  /** One iteration of the loop, branch by branch. */
  lemma AutoRunCases(ctx: Context, st: ConversationState, replies: seq<Reply>, now: int)
    ensures Halts(st.status) ==> AutoRun(ctx, st, replies, now) == Run(st, [], [], Halted)
    ensures !Halts(st.status) && ShouldEnd(st.currentTurn, st.maxTurns) ==>
      AutoRun(ctx, st, replies, now) == Run(EndState(st, now), [], [], EndCalled)
    ensures !Halts(st.status) && !ShouldEnd(st.currentTurn, st.maxTurns) && Prepare(ctx, st).Err? ==>
      AutoRun(ctx, st, replies, now) == Run(EndState(st, now), [], [], EndCalled)
    ensures !Halts(st.status) && !ShouldEnd(st.currentTurn, st.maxTurns) && Prepare(ctx, st).Ok? && replies == [] ==>
      AutoRun(ctx, st, replies, now) == Run(st, [], [], CutOff)
    ensures !Halts(st.status) && !ShouldEnd(st.currentTurn, st.maxTurns) && Prepare(ctx, st).Ok? && replies != [] ==>
      var p := Prepare(ctx, st).value;
      var t := Speak(ctx, st, p.agent, p.prompt, replies[0]);
      var rest := AutoRun(ctx, t.state, replies[1..], now);
      AutoRun(ctx, st, replies, now) ==
        if t.result.Err? then Run(EndState(t.state, now), [t.request], t.sent, EndCalled)
        else Run(rest.state, [t.request] + rest.requests, t.sent + rest.sent, rest.exit)
  {
  }

  /** `whole` is what is already done followed by the run `rest`. */
  predicate Resumes(whole: Run, requests: seq<LlmRequest>, sent: seq<Delivery>, rest: Run) {
    whole == Run(rest.state, requests + rest.requests, sent + rest.sent, rest.exit)
  }

  /** A run that resumes with a run which itself resumes with a third one resumes with the third. */
  lemma ResumesTrans(whole: Run, requests: seq<LlmRequest>, sent: seq<Delivery>, middle: Run,
                     moreRequests: seq<LlmRequest>, moreSent: seq<Delivery>, rest: Run)
    requires Resumes(whole, requests, sent, middle)
    requires Resumes(middle, moreRequests, moreSent, rest)
    ensures Resumes(whole, requests + moreRequests, sent + moreSent, rest)
  {
    AppendAssoc(requests, moreRequests, rest.requests);
    AppendAssoc(sent, moreSent, rest.sent);
  }

  /** A run that resumes with a run that stops at once ends where that one ends. */
  lemma ResumesDone(whole: Run, requests: seq<LlmRequest>, sent: seq<Delivery>, last: Run,
                    lastRequests: seq<LlmRequest>, lastSent: seq<Delivery>)
    requires Resumes(whole, requests, sent, last)
    requires last.requests == lastRequests && last.sent == lastSent
    ensures whole == Run(last.state, requests + lastRequests, sent + lastSent, last.exit)
  {
  }

  /** A stopped conversation's loop stops at once, without a turn. */
  lemma StopHaltsLoop(ctx: Context, st: ConversationState, replies: seq<Reply>, now: int)
    ensures AutoRun(ctx, StopState(st), replies, now) == Run(StopState(st), [], [], Halted)
  {
  }

  /**
   * How the loop can stop: a halt leaves everything as it was; an end leaves
   * status ended; a cut-off keeps the status.  The loop never sets status error.
   */
  lemma {:induction false} AutoRunExits(ctx: Context, st: ConversationState, replies: seq<Reply>, now: int)
    ensures var r := AutoRun(ctx, st, replies, now);
      && (r.exit == Halted ==> r.state == st && Halts(st.status))
      && (r.exit == EndCalled ==> r.state.status == "ended" && r.state.endedAt == Some(now))
      && (r.exit == CutOff ==> r.state.status == st.status)
      && r.exit != Gone
      && r.state.status in {st.status, "ended"}
    decreases |replies|
  {
    if !Halts(st.status) && !ShouldEnd(st.currentTurn, st.maxTurns) && Prepare(ctx, st).Ok? && replies != [] {
      var p := Prepare(ctx, st).value;
      var t := Speak(ctx, st, p.agent, p.prompt, replies[0]);
      if t.result.Ok? {
        AutoRunExits(ctx, t.state, replies[1..], now);
      }
    }
  }

  /** A roster the scheduler can always serve. */
  predicate GoodRoster(ctx: Context) {
    ctx.agentIds.Some? && |ctx.agentIds.value| > 0 && RosterKnown(ctx.agents, ctx.agentIds.value)
  }

  /** The message of turn `j` (counted from 0) as the round robin schedules it. */
  predicate IsTurnMessage(ctx: Context, m: Message, j: int)
    requires GoodRoster(ctx) && j >= 0
  {
    var id := ctx.agentIds.value[j % |ctx.agentIds.value|];
    && m.agentId == Some(id)
    && m.speaker == LookupAgent(ctx.agents, id).value.name
    && m.turnNumber == Some(j + 1)
    && !m.isStreaming
  }

  lemma PrepareSucceeds(ctx: Context, st: ConversationState)
    requires GoodRoster(ctx)
    ensures Prepare(ctx, st).Ok?
    ensures Prepare(ctx, st).value.agent == LookupAgent(ctx.agents, ctx.agentIds.value[st.currentTurn % |ctx.agentIds.value|]).value
  {
    var ids := ctx.agentIds.value;
    assert Known(ctx.agents, ids[st.currentTurn % |ids|]);
  }

  lemma AnsweredTurn(ctx: Context, st: ConversationState, reply: Reply)
    requires GoodRoster(ctx) && st.currentTurn >= 0 && Answers(ctx.config, reply)
    ensures Prepare(ctx, st).Ok?
    ensures var p := Prepare(ctx, st).value;
      var t := Speak(ctx, st, p.agent, p.prompt, reply);
      && t.result.Ok?
      && t.state == st.(messages := st.messages + [t.result.value], currentTurn := st.currentTurn + 1)
      && IsTurnMessage(ctx, t.result.value, st.currentTurn)
  {
    PrepareSucceeds(ctx, st);
    var p := Prepare(ctx, st).value;
    SpeakEffect(ctx, st, p.agent, p.prompt, reply);
  }

  /** One answered iteration of the loop: one scheduled turn message, then the loop goes on from there. */
  lemma AnsweredStep(ctx: Context, st: ConversationState, replies: seq<Reply>, now: int)
    requires GoodRoster(ctx) && !Halts(st.status) && st.currentTurn >= 0
    requires !ShouldEnd(st.currentTurn, st.maxTurns) && replies != [] && Answers(ctx.config, replies[0])
    ensures exists m :: (IsTurnMessage(ctx, m, st.currentTurn) &&
      var next := st.(messages := st.messages + [m], currentTurn := st.currentTurn + 1);
      && AutoRun(ctx, st, replies, now).state == AutoRun(ctx, next, replies[1..], now).state
      && AutoRun(ctx, st, replies, now).exit == AutoRun(ctx, next, replies[1..], now).exit)
  {
    AnsweredTurn(ctx, st, replies[0]);
    var p := Prepare(ctx, st).value;
    var t := Speak(ctx, st, p.agent, p.prompt, replies[0]);
    assert IsTurnMessage(ctx, t.result.value, st.currentTurn);
  }

  /** At the limit the loop ends the conversation at once, with the end message. */
  lemma EndsAtLimit(ctx: Context, st: ConversationState, replies: seq<Reply>, now: int)
    requires !Halts(st.status) && st.maxTurns > 0 && st.currentTurn == st.maxTurns
    ensures AutoRun(ctx, st, replies, now) == Run(EndState(st, now), [], [], EndCalled)
  {
  }

  /**
   * How a run from `st` to the limit m > 0 ends: exit by end, status ended, turn
   * m, the old messages followed by one message per remaining turn, each by the
   * agent the round robin names, and the end message numbered m + 1.
   */
  ghost predicate RanToLimit(ctx: Context, st: ConversationState, s: ConversationState, exit: Exit)
    requires GoodRoster(ctx) && 0 <= st.currentTurn <= st.maxTurns
  {
    var n := |st.messages|;
    var k := st.maxTurns - st.currentTurn;
    && exit == EndCalled && s.status == "ended"
    && s.currentTurn == st.maxTurns
    && |s.messages| == n + k + 1
    && s.messages[..n] == st.messages
    && (var turns := s.messages[n..n + k];
        forall i :: 0 <= i < k ==> IsTurnMessage(ctx, turns[i], st.currentTurn + i))
    && s.messages[n + k] == SystemMessage(EndText, st.maxTurns + 1)
  }

  /** A run that reaches the limit from the state after one scheduled turn reaches it from the state before. */
  lemma RanToLimitStep(ctx: Context, st: ConversationState, m: Message, s: ConversationState, exit: Exit)
    requires GoodRoster(ctx) && 0 <= st.currentTurn < st.maxTurns
    requires IsTurnMessage(ctx, m, st.currentTurn)
    requires RanToLimit(ctx, st.(messages := st.messages + [m], currentTurn := st.currentTurn + 1), s, exit)
    ensures RanToLimit(ctx, st, s, exit)
  {
    var next := st.(messages := st.messages + [m], currentTurn := st.currentTurn + 1);
    var n := |st.messages|;
    var k := st.maxTurns - st.currentTurn;
    assert s.messages[..n + 1] == next.messages;
    assert s.messages[..n] == st.messages by {
      assert s.messages[..n] == s.messages[..n + 1][..n];
    }
    var turns := s.messages[n..n + k];
    var later := s.messages[n + 1..n + k];
    forall i | 0 <= i < k
      ensures IsTurnMessage(ctx, turns[i], st.currentTurn + i)
    {
      if i == 0 {
        assert turns[0] == next.messages[n] == m;
      } else {
        assert turns[i] == later[i - 1];
      }
    }
  }

  /**
   * With a limit of m > 0 and a backend that always answers, the loop runs the
   * remaining turns, each by the agent the round robin names, and then ends the
   * conversation with one end message numbered m + 1.
   */
  lemma {:induction false} AutoRunToLimit(ctx: Context, st: ConversationState, replies: seq<Reply>, now: int)
    requires GoodRoster(ctx) && !Halts(st.status)
    requires 0 <= st.currentTurn <= st.maxTurns && st.maxTurns > 0
    requires |replies| >= st.maxTurns - st.currentTurn
    requires forall i :: 0 <= i < |replies| ==> Answers(ctx.config, replies[i])
    ensures var r := AutoRun(ctx, st, replies, now); RanToLimit(ctx, st, r.state, r.exit)
    decreases st.maxTurns - st.currentTurn
  {
    if st.currentTurn == st.maxTurns {
      EndsAtLimit(ctx, st, replies, now);
      assert (st.messages + [SystemMessage(EndText, st.currentTurn + 1)])[..|st.messages|] == st.messages;
    } else {
      AnsweredStep(ctx, st, replies, now);
      var m :| IsTurnMessage(ctx, m, st.currentTurn) &&
        var next := st.(messages := st.messages + [m], currentTurn := st.currentTurn + 1);
        && AutoRun(ctx, st, replies, now).state == AutoRun(ctx, next, replies[1..], now).state
        && AutoRun(ctx, st, replies, now).exit == AutoRun(ctx, next, replies[1..], now).exit;
      var next := st.(messages := st.messages + [m], currentTurn := st.currentTurn + 1);
      AutoRunToLimit(ctx, next, replies[1..], now);
      var r := AutoRun(ctx, next, replies[1..], now);
      RanToLimitStep(ctx, st, m, r.state, r.exit);
    }
  }

  /**
   * An unlimited conversation (limit <= 0) never ends itself: with a backend
   * that always answers, every scripted reply becomes one turn and the run is
   * only cut off when the script runs out.
   */
  lemma {:induction false} UnlimitedNeverEnds(ctx: Context, st: ConversationState, replies: seq<Reply>, now: int)
    requires GoodRoster(ctx) && !Halts(st.status) && st.maxTurns <= 0 && st.currentTurn >= 0
    requires forall i :: 0 <= i < |replies| ==> Answers(ctx.config, replies[i])
    ensures var r := AutoRun(ctx, st, replies, now); RanUnlimited(st, |replies|, r.state, r.exit)
    decreases |replies|
  {
    if replies == [] {
      CutOffWhenScriptEnds(ctx, st, now);
    } else {
      AnsweredStep(ctx, st, replies, now);
      var m :| IsTurnMessage(ctx, m, st.currentTurn) &&
        var next := st.(messages := st.messages + [m], currentTurn := st.currentTurn + 1);
        && AutoRun(ctx, st, replies, now).state == AutoRun(ctx, next, replies[1..], now).state
        && AutoRun(ctx, st, replies, now).exit == AutoRun(ctx, next, replies[1..], now).exit;
      var next := st.(messages := st.messages + [m], currentTurn := st.currentTurn + 1);
      UnlimitedNeverEnds(ctx, next, replies[1..], now);
      var r := AutoRun(ctx, next, replies[1..], now);
      RanUnlimitedStep(st, m, |replies| - 1, r.state, r.exit);
    }
  }

  /** A run of `k` turns from `st` that the script cuts off, the status kept and the old messages first. */
  predicate RanUnlimited(st: ConversationState, k: nat, s: ConversationState, exit: Exit) {
    && exit == CutOff && s.status == st.status
    && s.currentTurn == st.currentTurn + k
    && |s.messages| == |st.messages| + k
    && s.messages[..|st.messages|] == st.messages
  }

  lemma RanUnlimitedStep(st: ConversationState, m: Message, k: nat, s: ConversationState, exit: Exit)
    requires RanUnlimited(st.(messages := st.messages + [m], currentTurn := st.currentTurn + 1), k, s, exit)
    ensures RanUnlimited(st, k + 1, s, exit)
  {
    var n := |st.messages|;
    assert s.messages[..n] == s.messages[..n + 1][..n];
  }

  /** With nothing left in the script the loop is cut off before the turn. */
  lemma CutOffWhenScriptEnds(ctx: Context, st: ConversationState, now: int)
    requires GoodRoster(ctx) && !Halts(st.status) && !ShouldEnd(st.currentTurn, st.maxTurns)
    ensures AutoRun(ctx, st, [], now) == Run(st, [], [], CutOff)
  {
    PrepareSucceeds(ctx, st);
  }

  /** A turn whose backend fails ends the conversation: the loop does not try again. */
  lemma FailureEnds(ctx: Context, st: ConversationState, replies: seq<Reply>, now: int)
    requires GoodRoster(ctx) && !Halts(st.status) && !ShouldEnd(st.currentTurn, st.maxTurns)
    requires replies != [] && !Answers(ctx.config, replies[0])
    ensures var r := AutoRun(ctx, st, replies, now);
      && r.exit == EndCalled
      && r.state == EndState(st, now)
      && |r.requests| == 1
  {
    PrepareSucceeds(ctx, st);
    var p := Prepare(ctx, st).value;
    SpeakEffect(ctx, st, p.agent, p.prompt, replies[0]);
  }

  /** With a roster the scheduler can serve and a backend that answers, start succeeds with the first scheduled turn. */
  lemma StartAnswered(ctx: Context, st: ConversationState, reply: Reply)
    requires GoodRoster(ctx) && st.messages == [] && st.currentTurn == 0 && Answers(ctx.config, reply)
    ensures var r := Start(ctx, st, reply);
      && r.ok && r.state.status == "active" && r.state.currentTurn == 1 && r.state.maxTurns == st.maxTurns
      && |r.state.messages| == 2 && r.state.messages[0] == SystemMessage(StartText(ctx.topic), 0)
      && IsTurnMessage(ctx, r.state.messages[1], 0)
  {
    StartCases(ctx, st, reply);
    var started := StartState(st, ctx.topic);
    var prompt := SystemPrompt(ctx, st).value;
    FirstTurnAnswered(ctx, started, prompt, reply);
    var t := Speak(ctx, started, LookupAgent(ctx.agents, ctx.agentIds.value[0]).value, prompt, reply);
    var opening := SystemMessage(StartText(ctx.topic), 0);
    assert started.messages == [opening];
    assert t.state.messages == [opening, t.result.value];
    assert Start(ctx, st, reply).state == t.state;
  }

  /** The first agent's turn on the state start leaves, with a backend that answers. */
  lemma FirstTurnAnswered(ctx: Context, started: ConversationState, prompt: string, reply: Reply)
    requires GoodRoster(ctx) && started.currentTurn == 0 && Answers(ctx.config, reply)
    ensures var t := Speak(ctx, started, LookupAgent(ctx.agents, ctx.agentIds.value[0]).value, prompt, reply);
      && t.result.Ok? && t.state.status == started.status && t.state.currentTurn == 1 && t.state.maxTurns == started.maxTurns
      && t.state.messages == started.messages + [t.result.value]
      && IsTurnMessage(ctx, t.result.value, 0)
  {
    var ids := ctx.agentIds.value;
    assert Known(ctx.agents, ids[0]);
    var first := LookupAgent(ctx.agents, ids[0]).value;
    SpeakEffect(ctx, started, first, prompt, reply);
  }

  /**
   * A freshly created conversation with limit m > 0, started and then left to the
   * loop, with a backend that always answers: the start message, exactly m agent
   * messages, message i by `agent_ids[i mod len]`, then the end message; status ended.
   */
  lemma StartThenRun(ctx: Context, st: ConversationState, replies: seq<Reply>, now: int)
    requires GoodRoster(ctx)
    requires st.messages == [] && st.currentTurn == 0 && st.maxTurns > 0
    requires |replies| >= st.maxTurns
    requires forall i :: 0 <= i < |replies| ==> Answers(ctx.config, replies[i])
    ensures Start(ctx, st, replies[0]).ok
    ensures var r := AutoRun(ctx, Start(ctx, st, replies[0]).state, replies[1..], now);
      var m := st.maxTurns;
      && r.exit == EndCalled && r.state.status == "ended"
      && |r.state.messages| == m + 2
      && r.state.messages[0] == SystemMessage(StartText(ctx.topic), 0)
      && (var turns := r.state.messages[1..m + 1];
          forall i :: 0 <= i < m ==> IsTurnMessage(ctx, turns[i], i))
      && r.state.messages[m + 1] == SystemMessage(EndText, m + 1)
  {
    StartAnswered(ctx, st, replies[0]);
    RunAfterStart(ctx, Start(ctx, st, replies[0]).state, replies[1..], now);
  }

  /** The loop from the state start leaves: the turns up to the limit, then the end. */
  lemma RunAfterStart(ctx: Context, s1: ConversationState, replies: seq<Reply>, now: int)
    requires GoodRoster(ctx) && s1.status == "active" && s1.currentTurn == 1 && s1.maxTurns > 0
    requires |s1.messages| == 2 && s1.messages[0] == SystemMessage(StartText(ctx.topic), 0)
    requires IsTurnMessage(ctx, s1.messages[1], 0)
    requires |replies| >= s1.maxTurns - 1
    requires forall i :: 0 <= i < |replies| ==> Answers(ctx.config, replies[i])
    ensures var r := AutoRun(ctx, s1, replies, now);
      var m := s1.maxTurns;
      && r.exit == EndCalled && r.state.status == "ended"
      && |r.state.messages| == m + 2
      && r.state.messages[0] == SystemMessage(StartText(ctx.topic), 0)
      && (var turns := r.state.messages[1..m + 1];
          forall i :: 0 <= i < m ==> IsTurnMessage(ctx, turns[i], i))
      && r.state.messages[m + 1] == SystemMessage(EndText, m + 1)
  {
    AutoRunToLimit(ctx, s1, replies, now);
    var r := AutoRun(ctx, s1, replies, now);
    RanFromStart(ctx, s1, r.state, r.exit);
  }

  lemma RanFromStart(ctx: Context, s1: ConversationState, s: ConversationState, exit: Exit)
    requires GoodRoster(ctx) && s1.currentTurn == 1 && s1.maxTurns > 0
    requires |s1.messages| == 2 && s1.messages[0] == SystemMessage(StartText(ctx.topic), 0)
    requires IsTurnMessage(ctx, s1.messages[1], 0)
    requires RanToLimit(ctx, s1, s, exit)
    ensures var m := s1.maxTurns;
      && exit == EndCalled && s.status == "ended"
      && |s.messages| == m + 2
      && s.messages[0] == SystemMessage(StartText(ctx.topic), 0)
      && (var turns := s.messages[1..m + 1];
          forall i :: 0 <= i < m ==> IsTurnMessage(ctx, turns[i], i))
      && s.messages[m + 1] == SystemMessage(EndText, m + 1)
  {
    var m := s1.maxTurns;
    assert s.messages[..2] == s1.messages;
    assert s.messages[0] == s1.messages[0];
    var turns := s.messages[1..m + 1];
    var later := s.messages[2..m + 1];
    forall i | 0 <= i < m
      ensures IsTurnMessage(ctx, turns[i], i)
    {
      if i == 0 {
        assert turns[0] == s.messages[1] == s1.messages[1];
      } else {
        assert turns[i] == later[i - 1];
      }
    }
  }
}

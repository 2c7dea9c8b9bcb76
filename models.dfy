/**
 * The data model of the conversation system: agents and their state, messages,
 * conversations and the request bodies of the API, with the defaults and bounds
 * their pydantic declarations give them.  Timestamps are integers supplied by
 * the caller; floating-point times are reals.
 */
module Models {
  import opened Wrappers

  /** The speaker label of every system-generated message. */
  const SystemSpeaker: string := "시스템"

  // ---------------------------------------------------------------- agents

  datatype AgentPersonality = Philosopher | Scientist | Artist | Engineer | Historian | Psychologist {
    function Value(): string {
      match this
      case Philosopher => "philosopher"
      case Scientist => "scientist"
      case Artist => "artist"
      case Engineer => "engineer"
      case Historian => "historian"
      case Psychologist => "psychologist"
    }
  }

  /** Validation of a personality string: exactly the six enum values are accepted. */
  function ParsePersonality(s: string): (r: Option<AgentPersonality>)
    ensures r.Some? ==> r.value.Value() == s
    ensures r.Some? <==> s in {"philosopher", "scientist", "artist", "engineer", "historian", "psychologist"}
  {
    if s == "philosopher" then Some(Philosopher)
    else if s == "scientist" then Some(Scientist)
    else if s == "artist" then Some(Artist)
    else if s == "engineer" then Some(Engineer)
    else if s == "historian" then Some(Historian)
    else if s == "psychologist" then Some(Psychologist)
    else None
  }

  /** Distinct personalities have distinct values. */
  lemma PersonalityValuesInjective(a: AgentPersonality, b: AgentPersonality)
    ensures a.Value() == b.Value() ==> a == b
  {
  }

  datatype Agent = Agent(
    id: string,
    name: string,
    personality: AgentPersonality,
    systemPrompt: string,
    description: string,
    avatarUrl: Option<string>,
    isActive: bool)

  /** `Agent(id=..., name=..., personality=..., ...)`: the personality must be a known value. */
  function NewAgent(id: string, name: string, personality: string, systemPrompt: string, description: string): (r: Result<Agent>)
    ensures r.Ok? <==> ParsePersonality(personality).Some?
    ensures r.Err? ==> r.error == ValueError
    ensures r.Ok? ==> r.value.id == id && r.value.name == name && r.value.personality.Value() == personality
    ensures r.Ok? ==> r.value.avatarUrl == None && r.value.isActive
  {
    match ParsePersonality(personality)
    case None => Err(ValueError)
    case Some(p) => Ok(Agent(id, name, p, systemPrompt, description, None, true))
  }

  datatype AgentMessage = AgentMessage(
    agentId: string,
    content: string,
    timestamp: real,
    turnNumber: int,
    metadata: map<string, string>)

  function NewAgentMessage(agentId: string, content: string, timestamp: real, turnNumber: int): (m: AgentMessage)
    ensures m.metadata == map[] && m.agentId == agentId && m.content == content && m.turnNumber == turnNumber
  {
    AgentMessage(agentId, content, timestamp, turnNumber, map[])
  }

  /** `energy_level` is constrained to the range 0..10. */
  type EnergyLevel = e: int | 0 <= e <= 10 witness 5

  datatype AgentState = AgentState(
    agentId: string,
    currentTopic: Option<string>,
    mood: string,
    energyLevel: EnergyLevel,
    conversationStyle: string,
    lastMessageTime: Option<real>)

  /** `AgentState(agent_id=..., energy_level=e)`: an energy outside 0..10 fails validation. */
  function NewAgentState(agentId: string, energy: int): (r: Result<AgentState>)
    ensures r.Ok? <==> 0 <= energy <= 10
    ensures r.Err? ==> r.error == ValueError
    ensures r.Ok? ==> r.value == AgentState(agentId, None, "neutral", r.value.energyLevel, "balanced", None)
    ensures r.Ok? ==> r.value.energyLevel as int == energy
  {
    if 0 <= energy <= 10 then Ok(AgentState(agentId, None, "neutral", energy, "balanced", None))
    else Err(ValueError)
  }

  /** `AgentState(agent_id=...)`: every other field at its default. */
  function DefaultAgentState(agentId: string): (s: AgentState)
    ensures s.energyLevel == 5 && s.mood == "neutral" && s.conversationStyle == "balanced"
    ensures s.currentTopic == None && s.lastMessageTime == None
  {
    AgentState(agentId, None, "neutral", 5, "balanced", None)
  }

  // ---------------------------------------------------------------- conversations

  datatype ConversationStatus = Idle | Active | Stopped | Ended | Error {
    function Value(): string {
      match this
      case Idle => "idle"
      case Active => "active"
      case Stopped => "stopped"
      case Ended => "ended"
      case Error => "error"
    }
  }

  /** The status strings that name an enum value: exactly five. */
  function ParseStatus(s: string): (r: Option<ConversationStatus>)
    ensures r.Some? ==> r.value.Value() == s
    ensures r.Some? <==> s in {"idle", "active", "stopped", "ended", "error"}
  {
    if s == "idle" then Some(Idle)
    else if s == "active" then Some(Active)
    else if s == "stopped" then Some(Stopped)
    else if s == "ended" then Some(Ended)
    else if s == "error" then Some(Error)
    else None
  }

  lemma StatusValueRoundTrip(st: ConversationStatus)
    ensures ParseStatus(st.Value()) == Some(st)
  {
  }

  datatype Message = Message(
    speaker: string,
    content: string,
    agentId: Option<string>,
    turnNumber: Option<int>,
    isStreaming: bool)

  /** `Message(speaker=..., content=...)`: no agent id, no turn number, not streaming. */
  function NewMessage(speaker: string, content: string): (m: Message)
    ensures m.speaker == speaker && m.content == content
    ensures m.agentId == None && m.turnNumber == None && !m.isStreaming
  {
    Message(speaker, content, None, None, false)
  }

  /** A control message written by the service itself. */
  function SystemMessage(content: string, turn: int): (m: Message)
    ensures m.speaker == SystemSpeaker && m.agentId == None && m.turnNumber == Some(turn) && !m.isStreaming
  {
    Message(SystemSpeaker, content, None, Some(turn), false)
  }

  /** The fields of a conversation that the service and the update route change. */
  datatype ConversationState = ConversationState(
    status: string,
    messages: seq<Message>,
    currentTurn: int,
    maxTurns: int,
    metadata: map<string, string>,
    updatedAt: Option<int>,
    endedAt: Option<int>)

  /**
   * A conversation record.  `status` is a plain string: nothing restricts it to
   * the values of ConversationStatus.  The fields nothing in the system reassigns
   * after construction are constants.
   */
  class Conversation {
    const id: string
    const topic: string
    const title: Option<string>
    const agentIds: Option<seq<string>>
    const agents: seq<Agent>
    const agentStates: map<string, AgentState>
    const isUnlimited: bool
    const createdAt: int
    var status: string
    var messages: seq<Message>
    var currentTurn: int
    var maxTurns: int
    var metadata: map<string, string>
    var updatedAt: Option<int>
    var endedAt: Option<int>

    function State(): ConversationState
      reads this
    {
      ConversationState(status, messages, currentTurn, maxTurns, metadata, updatedAt, endedAt)
    }

    /** `Conversation(id=..., topic=...)` with every other field at its default. */
    constructor WithDefaults(id: string, topic: string, now: int)
      ensures this.id == id && this.topic == topic && createdAt == now
      ensures status == "active" && currentTurn == 0 && maxTurns == 10 && !isUnlimited
      ensures messages == [] && agents == [] && agentStates == map[] && metadata == map[]
      ensures title == None && agentIds == None && updatedAt == None && endedAt == None
    {
      this.id := id;
      this.topic := topic;
      title := None;
      agentIds := None;
      agents := [];
      agentStates := map[];
      isUnlimited := false;
      createdAt := now;
      status := "active";
      messages := [];
      currentTurn := 0;
      maxTurns := 10;
      metadata := map[];
      updatedAt := None;
      endedAt := None;
    }

    /** The constructor call the conversation service makes when it creates a conversation. */
    constructor (id: string, topic: string, title: Option<string>, agentIds: seq<string>,
                 maxTurns: int, status: string, now: int)
      ensures this.id == id && this.topic == topic && this.title == title
      ensures this.agentIds == Some(agentIds) && this.maxTurns == maxTurns && this.status == status
      ensures currentTurn == 0 && messages == [] && agents == [] && agentStates == map[]
      ensures !isUnlimited && metadata == map[]
      ensures createdAt == now && updatedAt == Some(now) && endedAt == None
    {
      this.id := id;
      this.topic := topic;
      this.title := title;
      this.agentIds := Some(agentIds);
      agents := [];
      agentStates := map[];
      isUnlimited := false;
      createdAt := now;
      this.status := status;
      messages := [];
      currentTurn := 0;
      this.maxTurns := maxTurns;
      metadata := map[];
      updatedAt := Some(now);
      endedAt := None;
    }
  }

  datatype ConversationRequest = ConversationRequest(
    topic: string,
    agentIds: seq<string>,
    maxTurns: int,
    title: Option<string>)

  /** `ConversationRequest(topic=..., agent_ids=...)`: ten turns, no title. */
  function NewConversationRequest(topic: string, agentIds: seq<string>): (r: ConversationRequest)
    ensures r.topic == topic && r.agentIds == agentIds && r.maxTurns == 10 && r.title == None
  {
    ConversationRequest(topic, agentIds, 10, None)
  }

  /** The body of the update route: every field optional. */
  datatype ConversationUpdate = ConversationUpdate(
    status: Option<string>,
    maxTurns: Option<int>,
    metadata: Option<map<string, string>>)

  function EmptyUpdate(): (u: ConversationUpdate)
    ensures u.status == None && u.maxTurns == None && u.metadata == None
  {
    ConversationUpdate(None, None, None)
  }
}

/**
 * The API layer: the WebSocket connection list and its broadcast, the payload
 * the message callback broadcasts, the agent-id check of the create route, the
 * field patch of the update route and the message view of the get route.
 * WebSockets are known by opaque numbers; whether a send fails is a parameter.
 */
module Routes {
  import opened Wrappers
  import opened PySeqs
  import opened Models
  import opened Lifecycle
  import opened Conversations
  import opened Llm

  /** A client connection. */
  type Socket = nat

  // ---------------------------------------------------------------- the connection list

  /** The position of the first occurrence of `x`. */
  function IndexOf(s: seq<Socket>, x: Socket): (i: nat)
    requires x in s
    ensures i < |s| && s[i] == x
    ensures forall j :: 0 <= j < i ==> s[j] != x
  {
    if s[0] == x then 0 else 1 + IndexOf(s[1..], x)
  }

  /** `s` without the element at `i`. */
  function RemoveAt(s: seq<Socket>, i: nat): (r: seq<Socket>)
    requires i < |s|
    ensures |r| == |s| - 1
    ensures multiset(r) == multiset(s) - multiset{s[i]}
  {
    assert s == s[..i] + [s[i]] + s[i + 1..];
    s[..i] + s[i + 1..]
  }

  /** `list.remove(x)`: the first occurrence goes; ValueError when there is none. */
  function RemoveFirst(s: seq<Socket>, x: Socket): (r: Result<seq<Socket>>)
    ensures r.Ok? <==> x in s
    ensures r.Err? ==> r.error == ValueError
    ensures r.Ok? ==> |r.value| == |s| - 1 && multiset(r.value) == multiset(s) - multiset{x}
  {
    if x in s then Ok(RemoveAt(s, IndexOf(s, x))) else Err(ValueError)
  }

  /** What a broadcast leaves: the connections kept, and the sockets the message reached, in order. */
  datatype Sweep = Sweep(remaining: seq<Socket>, reached: seq<Socket>)

  /**
   * `broadcast` as written: a `for` loop over the list it removes from.  The
   * loop's position `i` advances after a removal too, so the connection after
   * a failing one is passed over.
   */
  function SweepAsWritten(conns: seq<Socket>, failing: set<Socket>, i: nat): (r: Sweep)
    decreases |conns| - i
  {
    if i >= |conns| then Sweep(conns, [])
    else if conns[i] in failing then SweepAsWritten(RemoveAt(conns, IndexOf(conns, conns[i])), failing, i + 1)
    else
      var rest := SweepAsWritten(conns, failing, i + 1);
      Sweep(rest.remaining, [conns[i]] + rest.reached)
  }

  /** The connections whose send succeeds, in order. */
  function Working(conns: seq<Socket>, failing: set<Socket>): (r: seq<Socket>)
    ensures |r| <= |conns|
    ensures forall x :: x in r <==> x in conns && x !in failing
    decreases |conns|
  {
    if conns == [] then []
    else
      var init := conns[..|conns| - 1];
      var last := conns[|conns| - 1];
      assert conns == init + [last];
      if last in failing then Working(init, failing) else Working(init, failing) + [last]
  }

  /**
   * The evidently intended broadcast, over a snapshot of the list: every
   * working connection gets the message and stays, every failing one goes.
   */
  function SweepIntended(conns: seq<Socket>, failing: set<Socket>): (r: Sweep)
    ensures r.remaining == r.reached == Working(conns, failing)
  {
    Sweep(Working(conns, failing), Working(conns, failing))
  }

  /** Taking out one failing connection keeps every working one. */
  lemma RemovalKeeps(conns: seq<Socket>, next: seq<Socket>, x: Socket, failing: set<Socket>)
    requires x in failing && multiset(next) == multiset(conns) - multiset{x}
    ensures multiset(next) <= multiset(conns)
    ensures forall y :: y !in failing ==> multiset(next)[y] == multiset(conns)[y]
  {
  }

  /**
   * As written, a broadcast never adds a connection, never drops one whose
   * send succeeds, and reaches only working connections, each at most as
   * often as it is listed.
   */
  lemma {:induction false} SweepAsWrittenKeeps(conns: seq<Socket>, failing: set<Socket>, i: nat)
    ensures var r := SweepAsWritten(conns, failing, i);
      && multiset(r.remaining) <= multiset(conns)
      && (forall x :: x !in failing ==> multiset(r.remaining)[x] == multiset(conns)[x])
    decreases |conns| - i
  {
    if i < |conns| {
      var x := conns[i];
      if x in failing {
        var next := RemoveAt(conns, IndexOf(conns, x));
        assert SweepAsWritten(conns, failing, i) == SweepAsWritten(next, failing, i + 1);
        SweepAsWrittenKeeps(next, failing, i + 1);
        RemovalKeeps(conns, next, x, failing);
      } else {
        var rest := SweepAsWritten(conns, failing, i + 1);
        assert SweepAsWritten(conns, failing, i).remaining == rest.remaining;
        SweepAsWrittenKeeps(conns, failing, i + 1);
      }
    }
  }

  /** As written, a broadcast reaches only working connections that were open. */
  lemma {:induction false} SweepAsWrittenReaches(conns: seq<Socket>, failing: set<Socket>, i: nat)
    ensures forall x :: x in SweepAsWritten(conns, failing, i).reached ==> x in conns && x !in failing
    decreases |conns| - i
  {
    if i < |conns| {
      var x := conns[i];
      if x in failing {
        var next := RemoveAt(conns, IndexOf(conns, x));
        SweepAsWrittenReaches(next, failing, i + 1);
        forall y | y in next
          ensures y in conns
        {
          assert multiset(next)[y] > 0;
        }
      } else {
        SweepAsWrittenReaches(conns, failing, i + 1);
      }
    }
  }

  /**
   * The broadcast as written passes over the connection after a failing one:
   * with connections [0, 1] and 0 failing, working connection 1 is not reached.
   */
  lemma SweepAsWrittenSkips()
    ensures SweepAsWritten([0, 1], {0}, 0) == Sweep([1], [])
    ensures SweepIntended([0, 1], {0}) == Sweep([1], [1])
  {
    var conns: seq<Socket> := [0, 1];
    assert IndexOf(conns, 0) == 0;
    assert RemoveAt(conns, 0) == [1];
    assert SweepAsWritten([1], {0}, 1) == Sweep([1], []);
    var init: seq<Socket> := [0];
    assert conns[..1] == init && init[..0] == [];
    assert Working(init, {0}) == [];
    assert Working(conns, {0}) == [1];
  }

  /** With no failing connection among those still to visit, the broadcast as written visits them all and keeps the list. */
  lemma {:induction false} SweepAsWrittenWithoutFailures(conns: seq<Socket>, failing: set<Socket>, i: nat)
    requires i <= |conns|
    requires forall j :: i <= j < |conns| ==> conns[j] !in failing
    ensures SweepAsWritten(conns, failing, i) == Sweep(conns, conns[i..])
    decreases |conns| - i
  {
    if i < |conns| {
      SweepAsWrittenWithoutFailures(conns, failing, i + 1);
      assert conns[i..] == [conns[i]] + conns[i + 1..];
    }
  }

  /**
   * `ConnectionManager`: the open connections in connection order.  A
   * broadcast returns the connections its message reached, in order.
   */
  class ConnectionManager {
    var activeConnections: seq<Socket>

    constructor ()
      ensures activeConnections == []
    {
      activeConnections := [];
    }

    /** `connect`: the socket goes last. */
    method Connect(ws: Socket)
      modifies this
      ensures activeConnections == old(activeConnections) + [ws]
    {
      activeConnections := activeConnections + [ws];
    }

    /** `disconnect`: `list.remove`, so an unknown socket raises ValueError and nothing changes. */
    method Disconnect(ws: Socket) returns (r: Result<()>)
      modifies this
      ensures r.Ok? <==> ws in old(activeConnections)
      ensures r.Err? ==> r.error == ValueError && activeConnections == old(activeConnections)
      ensures r.Ok? ==> activeConnections == RemoveFirst(old(activeConnections), ws).value
    {
      match RemoveFirst(activeConnections, ws)
      case Err(e) =>
        r := Err(e);
      case Ok(rest) =>
        activeConnections := rest;
        r := Ok(());
    }

    /** `broadcast` as written: the list is changed while the loop walks it. */
    method BroadcastAsWritten(message: string, failing: set<Socket>) returns (reached: seq<Socket>)
      modifies this
      ensures activeConnections == SweepAsWritten(old(activeConnections), failing, 0).remaining
      ensures reached == SweepAsWritten(old(activeConnections), failing, 0).reached
    {
      ghost var whole := SweepAsWritten(activeConnections, failing, 0);
      reached := [];
      var i := 0;
      while i < |activeConnections|
        invariant var w := SweepAsWritten(activeConnections, failing, i);
          whole == Sweep(w.remaining, reached + w.reached)
        decreases |activeConnections| - i
      {
        var connection := activeConnections[i];
        if connection in failing {
          activeConnections := RemoveFirst(activeConnections, connection).value;
        } else {
          ghost var rest := SweepAsWritten(activeConnections, failing, i + 1);
          AppendAssoc(reached, [connection], rest.reached);
          reached := reached + [connection];
        }
        i := i + 1;
      }
    }

    /** The broadcast over a snapshot of the list: every working connection is reached, every failing one goes. */
    method Broadcast(message: string, failing: set<Socket>) returns (reached: seq<Socket>)
      modifies this
      ensures activeConnections == Working(old(activeConnections), failing)
      ensures reached == Working(old(activeConnections), failing)
    {
      var snapshot := activeConnections;
      var remaining := snapshot;
      reached := [];
      var i := 0;
      while i < |snapshot|
        invariant 0 <= i <= |snapshot|
        invariant remaining == Working(snapshot[..i], failing) + snapshot[i..]
        invariant reached == Working(snapshot[..i], failing)
      {
        var connection := snapshot[i];
        BroadcastStep(snapshot, i, failing);
        if connection in failing {
          remaining := RemoveFirst(remaining, connection).value;
        } else {
          reached := reached + [connection];
        }
        i := i + 1;
      }
      assert snapshot[..i] == snapshot;
      activeConnections := remaining;
    }
  }

  /** One step of the snapshot broadcast: a failing connection is the first of its kind after the kept prefix. */
  lemma BroadcastStep(snapshot: seq<Socket>, i: nat, failing: set<Socket>)
    requires i < |snapshot|
    ensures var kept := Working(snapshot[..i], failing);
      var x := snapshot[i];
      && (x in failing ==>
            Working(snapshot[..i + 1], failing) == kept && RemoveFirst(kept + snapshot[i..], x) == Ok(kept + snapshot[i + 1..]))
      && (x !in failing ==>
            Working(snapshot[..i + 1], failing) == kept + [x] && kept + snapshot[i..] == Working(snapshot[..i + 1], failing) + snapshot[i + 1..])
  {
    var kept := Working(snapshot[..i], failing);
    var x := snapshot[i];
    var tail := snapshot[i + 1..];
    SplitAt(snapshot, i);
    WorkingSnoc(snapshot[..i], x, failing);
    if x in failing {
      FirstAfter(kept, x, tail);
    } else {
      AppendAssoc(kept, [x], tail);
    }
  }

  lemma SplitAt(s: seq<Socket>, i: nat)
    requires i < |s|
    ensures s[i..] == [s[i]] + s[i + 1..]
    ensures s[..i + 1] == s[..i] + [s[i]]
  {
  }

  lemma WorkingSnoc(s: seq<Socket>, x: Socket, failing: set<Socket>)
    ensures Working(s + [x], failing) == if x in failing then Working(s, failing) else Working(s, failing) + [x]
  {
    assert (s + [x])[..|s + [x]| - 1] == s;
  }

  /** Removing the first `x` from `kept + [x] + tail`, when `kept` has no `x`, leaves `kept + tail`. */
  lemma FirstAfter(kept: seq<Socket>, x: Socket, tail: seq<Socket>)
    requires x !in kept
    ensures RemoveFirst(kept + ([x] + tail), x) == Ok(kept + tail)
  {
    var s := kept + ([x] + tail);
    assert s[|kept|] == x;
    var i := IndexOf(s, x);
    assert forall j :: 0 <= j < |kept| ==> s[j] == kept[j];
    assert i == |kept|;
    assert s[..i] == kept;
    assert s[i + 1..] == tail;
  }

  // ---------------------------------------------------------------- the message callback

  /** The JSON object `message_callback` broadcasts, less its timestamp. */
  datatype Payload = Payload(
    kind: string,
    conversationId: string,
    agentId: Option<string>,
    content: string,
    turnNumber: Option<int>,
    agentName: string,
    isStreaming: bool)

  /** A partial answer is a "stream_update", everything else a "new_message"; the shown name is the speaker. */
  function MessagePayload(conversationId: string, m: Message): (p: Payload)
    ensures p.kind == "stream_update" <==> m.isStreaming
    ensures p.kind == "new_message" <==> !m.isStreaming
    ensures p.agentName == m.speaker && p.isStreaming == m.isStreaming
    ensures p.conversationId == conversationId && p.agentId == m.agentId && p.content == m.content && p.turnNumber == m.turnNumber
  {
    var kind := if m.isStreaming then "stream_update" else "new_message";
    Payload(kind, conversationId, m.agentId, m.content, m.turnNumber, m.speaker, m.isStreaming)
  }

  /** Every partial a streaming turn hands to the callbacks goes out as a "stream_update" of the coming turn. */
  lemma StreamPayloads(ctx: Context, agent: Agent, currentTurn: int, updates: seq<StreamUpdate>, i: int)
    requires 0 <= i < |StreamDeliveries(ctx, agent, currentTurn, updates)|
    ensures var p := MessagePayload(ctx.conversationId, StreamDeliveries(ctx, agent, currentTurn, updates)[i].message);
      p.kind == "stream_update" && p.turnNumber == Some(currentTurn + 1)
  {
    StreamDeliveriesAreStreaming(ctx, agent, currentTurn, updates, i);
  }

  /** An agent's final answer goes out as a "new_message" under the agent's name and id. */
  lemma AnswerPayload(conversationId: string, agent: Agent, content: string, currentTurn: int)
    ensures MessagePayload(conversationId, AgentMessageFor(agent, content, currentTurn)) ==
      Payload("new_message", conversationId, Some(agent.id), content, Some(currentTurn + 1), agent.name, false)
  {
  }

  // ---------------------------------------------------------------- the create route

  /** A route's answer: its body, or an HTTPException with a status code and a detail. */
  datatype HttpResult<+T> = Answered(body: T) | Refused(status: int, detail: string)

  /** The `data` of a ConversationResponse. */
  datatype CreatedData = CreatedData(title: Option<string>, agentIds: Option<seq<string>>, maxTurns: int)

  /** `ConversationResponse` */
  datatype ConversationResponse = ConversationResponse(conversationId: string, status: string, message: string, data: CreatedData)

  const UnknownAgentPrefix: string := "존재하지 않는 에이전트 ID: "
  const CreateFailedPrefix: string := "대화 생성 중 오류가 발생했습니다: "
  const CreatedText: string := "대화가 성공적으로 생성되었습니다."
  const NotFoundText: string := "대화를 찾을 수 없습니다."

  /** A known last id adds its agent at the end of the selection. */
  lemma SelectedSnoc(agents: seq<Agent>, ids: seq<string>)
    requires ids != [] && Known(agents, ids[|ids| - 1])
    ensures SelectedAgents(agents, ids) == SelectedAgents(agents, ids[..|ids| - 1]) + [LookupAgent(agents, ids[|ids| - 1]).value]
  {
  }

  /** When every requested id is known, the service selects one agent per id, in request order. */
  lemma {:induction false} SelectedWhenAllKnown(agents: seq<Agent>, ids: seq<string>)
    requires RosterKnown(agents, ids)
    ensures |SelectedAgents(agents, ids)| == |ids|
    ensures forall i :: 0 <= i < |ids| ==> SelectedAgents(agents, ids)[i].id == ids[i]
    decreases |ids|
  {
    if ids != [] {
      var init := ids[..|ids| - 1];
      var last := ids[|ids| - 1];
      assert Known(agents, last);
      assert RosterKnown(agents, init) by {
        forall i | 0 <= i < |init|
          ensures Known(agents, init[i])
        {
          assert init[i] == ids[i];
        }
      }
      SelectedWhenAllKnown(agents, init);
      SelectedSnoc(agents, ids);
      var rest := SelectedAgents(agents, init);
      var a := LookupAgent(agents, last).value;
      forall i | 0 <= i < |ids|
        ensures (rest + [a])[i].id == ids[i]
      {
        if i < |init| {
          assert (rest + [a])[i] == rest[i] && init[i] == ids[i];
        } else {
          assert i == |rest| && (rest + [a])[i] == a && a.id == last;
        }
      }
    }
  }

  /**
   * The check loop of the create route: the position of the first requested
   * id that is not among the registry's ids, if any.
   */
  method FirstUnknown(registry: seq<Agent>, ids: seq<string>) returns (unknown: Option<nat>)
    ensures unknown.None? <==> RosterKnown(registry, ids)
    ensures unknown.Some? ==> unknown.value < |ids| && !Known(registry, ids[unknown.value])
    ensures unknown.Some? ==> forall j :: 0 <= j < unknown.value ==> Known(registry, ids[j])
  {
    var availableAgents := AgentIds(registry);
    var i := 0;
    while i < |ids|
      invariant 0 <= i <= |ids|
      invariant forall j :: 0 <= j < i ==> Known(registry, ids[j])
    {
      AgentIdsKnown(registry, ids[i]);
      if ids[i] !in availableAgents {
        return Some(i);
      }
      i := i + 1;
    }
    return None;
  }

  /**
   * `create_conversation` (the route): the first requested id that names no
   * agent is refused with 400 and the service is not called; an empty request
   * makes the service raise, which the route answers with 500; otherwise the
   * new conversation is described.
   */
  method CreateRoute(service: ConversationService, request: ConversationRequest, stamp: string, now: int)
      returns (r: HttpResult<ConversationResponse>)
    requires service.Valid()
    modifies service, service.memory
    ensures service.Valid()
    ensures r.Refused? && r.status == 400 <==> exists k :: 0 <= k < |request.agentIds| && !Known(service.agents, request.agentIds[k])
    ensures r.Refused? && r.status == 400 ==>
      exists k :: 0 <= k < |request.agentIds| && !Known(service.agents, request.agentIds[k])
        && r.detail == UnknownAgentPrefix + request.agentIds[k]
        && forall j :: 0 <= j < k ==> Known(service.agents, request.agentIds[j])
    ensures r.Refused? && r.status == 400 ==>
      service.activeConversations == old(service.activeConversations) && service.memory.conversations == old(service.memory.conversations)
    ensures r.Refused? && r.status == 500 <==> request.agentIds == []
    ensures r.Refused? && r.status == 500 ==>
      r.detail == CreateFailedPrefix + NoValidAgents && service.activeConversations == old(service.activeConversations)
    ensures r.Refused? ==> r.status == 400 || r.status == 500
    ensures r.Answered? ==>
      exists c: Conversation :: c.id == r.body.conversationId
        && service.activeConversations == old(service.activeConversations).Set(c.id, c)
        && r.body == ConversationResponse(c.id, "idle", CreatedText, CreatedData(request.title, Some(request.agentIds), request.maxTurns))
  {
    var registry := service.GetAgents();
    var unknown := FirstUnknown(registry, request.agentIds);
    if unknown.Some? {
      return Refused(400, UnknownAgentPrefix + request.agentIds[unknown.value]);
    }
    if request.agentIds != [] {
      SelectedWhenAllKnown(service.agents, request.agentIds);
      assert Known(service.agents, request.agentIds[0]);
    }
    var created := service.CreateConversation(request, stamp, now);
    match created
    case Err(_) =>
      r := Refused(500, CreateFailedPrefix + NoValidAgents);
    case Ok(c) =>
      r := Answered(ConversationResponse(c.id, c.status, CreatedText, CreatedData(c.title, c.agentIds, c.maxTurns)));
  }

  // ---------------------------------------------------------------- the update route

  /**
   * The patch of `update_conversation`: each supplied field replaces the
   * stored one (metadata is merged in, the update's keys winning), and
   * `updated_at` becomes the time of the call.
   */
  function Patched(st: ConversationState, u: ConversationUpdate, now: int): (r: ConversationState)
    ensures r.messages == st.messages && r.currentTurn == st.currentTurn && r.endedAt == st.endedAt
    ensures r.updatedAt == Some(now)
    ensures r.status == (if u.status.Some? then u.status.value else st.status)
    ensures r.maxTurns == (if u.maxTurns.Some? then u.maxTurns.value else st.maxTurns)
    ensures u.metadata.None? ==> r.metadata == st.metadata
    ensures u.metadata.Some? ==> r.metadata.Keys == st.metadata.Keys + u.metadata.value.Keys
    ensures u.metadata.Some? ==> forall k :: k in u.metadata.value ==> r.metadata[k] == u.metadata.value[k]
    ensures forall k :: k in st.metadata && (u.metadata.None? || k !in u.metadata.value) ==> r.metadata[k] == st.metadata[k]
  {
    var status := if u.status.Some? then u.status.value else st.status;
    var maxTurns := if u.maxTurns.Some? then u.maxTurns.value else st.maxTurns;
    var metadata := if u.metadata.Some? then st.metadata + u.metadata.value else st.metadata;
    st.(status := status, maxTurns := maxTurns, metadata := metadata, updatedAt := Some(now))
  }

  /** Applying the same update twice at the same time is applying it once. */
  lemma PatchIdempotent(st: ConversationState, u: ConversationUpdate, now: int)
    ensures Patched(Patched(st, u, now), u, now) == Patched(st, u, now)
  {
    var once := Patched(st, u, now);
    var twice := Patched(once, u, now);
    assert twice.metadata == once.metadata;
  }

  /** An update that supplies nothing only refreshes the time. */
  lemma EmptyPatch(st: ConversationState, now: int)
    ensures Patched(st, EmptyUpdate(), now) == st.(updatedAt := Some(now))
  {
  }

  /** The acknowledgement of the update route. */
  datatype Acknowledged = Acknowledged(message: string, conversationId: string)

  const UpdatedText: string := "대화 정보가 업데이트되었습니다."

  /**
   * `update_conversation` (the route): 404 for an id the service does not
   * hold; otherwise the registered conversation is patched in place.  The
   * patched conversation is not saved to the store.
   */
  method UpdateRoute(service: ConversationService, conversationId: string, u: ConversationUpdate, now: int)
      returns (r: HttpResult<Acknowledged>)
    requires service.Valid()
    modifies service.Registered(conversationId)
    ensures service.Valid()
    ensures r.Refused? <==> conversationId !in service.activeConversations.entries
    ensures r.Refused? ==> r == Refused(404, NotFoundText)
    ensures r.Answered? ==> r.body == Acknowledged(UpdatedText, conversationId)
    ensures r.Answered? ==>
      var c := service.activeConversations.entries[conversationId]; c.State() == Patched(old(c.State()), u, now)
  {
    var found := service.GetConversation(conversationId);
    if found.None? {
      return Refused(404, NotFoundText);
    }
    var c := found.value;
    if u.status.Some? {
      c.status := u.status.value;
    }
    if u.maxTurns.Some? {
      c.maxTurns := u.maxTurns.value;
    }
    if u.metadata.Some? {
      c.metadata := c.metadata + u.metadata.value;
    }
    c.updatedAt := Some(now);
    r := Answered(Acknowledged(UpdatedText, conversationId));
  }

  // ---------------------------------------------------------------- the get route

  /** One message as the get route shows it, less its timestamp. */
  datatype MessageView = MessageView(agentId: Option<string>, content: string, turnNumber: int, agentName: string)

  /** `turn_number or 0` */
  function ShownTurn(t: Option<int>): (n: int)
    ensures t.None? ==> n == 0
    ensures t.Some? ==> n == t.value
  {
    if t.Some? then t.value else 0
  }

  const UnknownName: string := "Unknown"

  /** The name shown for a message: that of the first agent with the message's id; "Unknown" without an id. */
  function FirstAgentName(agents: seq<Agent>, agentId: Option<string>): (name: string)
    ensures agentId.None? ==> name == UnknownName
    decreases |agents|
  {
    if agentId.None? || agents == [] then UnknownName
    else if agents[0].id == agentId.value then agents[0].name
    else FirstAgentName(agents[1..], agentId)
  }

  /**
   * The agents before `i` hold other ids; the name shown is that of agent `i`
   * when it holds the id, and "Unknown" when no agent does (`i` is then the length).
   */
  lemma {:induction false} FirstAgentNameAt(agents: seq<Agent>, id: string) returns (i: nat)
    ensures i <= |agents| && forall j :: 0 <= j < i ==> agents[j].id != id
    ensures i < |agents| ==> agents[i].id == id && FirstAgentName(agents, Some(id)) == agents[i].name
    ensures i == |agents| ==> FirstAgentName(agents, Some(id)) == UnknownName
    decreases |agents|
  {
    i := 0;
    if agents != [] && agents[0].id != id {
      var tail := agents[1..];
      var r := FirstAgentNameAt(tail, id);
      assert forall j :: 1 <= j < |agents| ==> tail[j - 1] == agents[j];
      i := r + 1;
    }
  }

  /** Agents with pairwise different ids. */
  predicate DistinctIds(agents: seq<Agent>) {
    forall i, j :: 0 <= i < j < |agents| ==> agents[i].id != agents[j].id
  }

  /**
   * With pairwise different agent ids, the name the get route shows is the
   * name of the agent the service looks the id up as.
   */
  lemma FirstAgentNameIsLookup(agents: seq<Agent>, id: string)
    requires DistinctIds(agents) && Known(agents, id)
    ensures FirstAgentName(agents, Some(id)) == LookupAgent(agents, id).value.name
  {
    var a := LookupAgent(agents, id).value;
    var k :| 0 <= k < |agents| && agents[k] == a;
    var i := FirstAgentNameAt(agents, id);
  }

  function View(agents: seq<Agent>, m: Message): (v: MessageView)
    ensures v.agentId == m.agentId && v.content == m.content
  {
    MessageView(m.agentId, m.content, ShownTurn(m.turnNumber), FirstAgentName(agents, m.agentId))
  }

  /** The `messages` of the get route: one view per stored message, in order. */
  function MessageViews(agents: seq<Agent>, messages: seq<Message>): (r: seq<MessageView>)
    ensures |r| == |messages|
    ensures forall i :: 0 <= i < |messages| ==> r[i] == View(agents, messages[i])
  {
    seq(|messages|, i requires 0 <= i < |messages| => View(agents, messages[i]))
  }

  /** A control message is shown as turn n of "Unknown"; an agent's answer under that agent's name. */
  lemma ViewsOfTurns(agents: seq<Agent>, agent: Agent, content: string, currentTurn: int, text: string, n: int)
    requires DistinctIds(agents) && agent in agents
    ensures View(agents, SystemMessage(text, n)) == MessageView(None, text, n, UnknownName)
    ensures View(agents, AgentMessageFor(agent, content, currentTurn)) == MessageView(Some(agent.id), content, currentTurn + 1, agent.name)
  {
    var k :| 0 <= k < |agents| && agents[k] == agent;
    assert Known(agents, agent.id);
    FirstAgentNameIsLookup(agents, agent.id);
    var a := LookupAgent(agents, agent.id).value;
    var j :| 0 <= j < |agents| && agents[j] == a;
  }

  /** The body of the get route. */
  datatype ConversationView = ConversationView(
    id: string,
    title: Option<string>,
    status: string,
    createdAt: int,
    updatedAt: Option<int>,
    agentIds: Option<seq<string>>,
    currentTurn: int,
    maxTurns: int,
    messages: seq<MessageView>,
    agentStates: map<string, AgentState>)

  /** `get_conversation` (the route): 404 for an id the service does not hold. */
  method GetConversationRoute(service: ConversationService, conversationId: string) returns (r: HttpResult<ConversationView>)
    requires service.Valid()
    ensures r.Refused? <==> conversationId !in service.activeConversations.entries
    ensures r.Refused? ==> r == Refused(404, NotFoundText)
    ensures r.Answered? ==> var c := service.activeConversations.entries[conversationId];
      r.body == ConversationView(c.id, c.title, c.status, c.createdAt, c.updatedAt, c.agentIds, c.currentTurn, c.maxTurns,
                                 MessageViews(service.agents, c.messages), c.agentStates)
  {
    var found := service.GetConversation(conversationId);
    if found.None? {
      return Refused(404, NotFoundText);
    }
    var c := found.value;
    var agents := service.GetAgents();
    r := Answered(ConversationView(c.id, c.title, c.status, c.createdAt, c.updatedAt, c.agentIds, c.currentTurn, c.maxTurns,
                                   MessageViews(agents, c.messages), c.agentStates));
  }
}

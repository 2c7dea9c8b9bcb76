/**
 * The in-memory conversation memory: per conversation, an append-only log of
 * entries, read back as a recent-history window, per agent or by topic
 * keywords, and cleared as a whole.
 */
module Memory {
  import opened Wrappers
  import opened PyStrings
  import opened Models
  import opened PySeqs

  /** `importance_score` is constrained to [0, 1]. */
  type Importance = r: real | 0.0 <= r <= 1.0 witness 0.5

  const DefaultImportance: Importance := 0.5

  datatype MemoryEntry = MemoryEntry(
    conversationId: string,
    agentId: string,
    message: AgentMessage,
    context: map<string, string>,
    importanceScore: Importance,
    createdAt: int)

  // ---------------------------------------------------------------- slices and filters

  /** What a query keeps: the entries of one agent, or those mentioning a keyword. */
  datatype Criterion = ByAgent(agentId: string) | ByKeywords(keywords: seq<string>)

  /** `any(keyword in content for keyword in keywords)` */
  function AnyKeywordIn(content: string, keywords: seq<string>): (b: bool)
    ensures b <==> exists j :: 0 <= j < |keywords| && Contains(content, keywords[j])
    decreases |keywords|
  {
    if keywords == [] then false
    else Contains(content, keywords[0]) || AnyKeywordIn(content, keywords[1..])
  }

  predicate Matches(c: Criterion, e: MemoryEntry) {
    match c
    case ByAgent(id) => e.agentId == id
    case ByKeywords(kws) => AnyKeywordIn(Lower(e.message.content), kws)
  }

  /** The entries that meet the criterion, in stored order. */
  function Filter(entries: seq<MemoryEntry>, c: Criterion): (r: seq<MemoryEntry>)
    ensures |r| <= |entries|
    ensures forall i :: 0 <= i < |r| ==> Matches(c, r[i]) && r[i] in entries
    ensures forall i :: 0 <= i < |entries| && Matches(c, entries[i]) ==> entries[i] in r
    decreases |entries|
  {
    if entries == [] then []
    else
      var last := entries[|entries| - 1];
      var kept := Filter(entries[..|entries| - 1], c);
      if Matches(c, last) then kept + [last] else kept
  }

  lemma {:induction false} FilterIsSubsequence(entries: seq<MemoryEntry>, c: Criterion)
    ensures Subsequence(Filter(entries, c), entries)
    decreases |entries|
  {
    if entries != [] {
      var init := entries[..|entries| - 1];
      var last := entries[|entries| - 1];
      var kept := Filter(init, c);
      FilterIsSubsequence(init, c);
      if Matches(c, last) {
        assert (kept + [last])[..|kept|] == kept;
      } else if kept != [] {
        assert Matches(c, kept[|kept| - 1]);
      }
    }
  }

  // ---------------------------------------------------------------- the queries

  /** `get_conversation_history`: unknown conversations have no history. */
  function History(memories: map<string, seq<MemoryEntry>>, conversationId: string, limit: int): seq<MemoryEntry> {
    if conversationId in memories then PyTail(memories[conversationId], limit) else []
  }

  /** `get_agent_memory` */
  function AgentMemory(memories: map<string, seq<MemoryEntry>>, agentId: string, conversationId: string, limit: int): seq<MemoryEntry> {
    if conversationId in memories then PyTail(Filter(memories[conversationId], ByAgent(agentId)), limit) else []
  }

  /** The keywords of a topic: its whitespace-separated words, lower-cased. */
  function TopicKeywords(topic: string): seq<string> {
    Words(Lower(topic))
  }

  /** `get_relevant_context` */
  function RelevantContext(memories: map<string, seq<MemoryEntry>>, conversationId: string, topic: string, limit: int): seq<MemoryEntry> {
    if conversationId in memories then PyTail(Filter(memories[conversationId], ByKeywords(TopicKeywords(topic))), limit) else []
  }

  /** A positive limit gives the newest `min(limit, n)` entries in stored order; a zero limit gives all. */
  lemma HistoryWindow(memories: map<string, seq<MemoryEntry>>, conversationId: string, limit: int)
    requires conversationId in memories
    ensures var log := memories[conversationId];
      var r := History(memories, conversationId, limit);
      && (limit > 0 ==> r == log[|log| - Min(limit, |log|)..])
      && (limit == 0 ==> r == log)
  {
  }

  /** Every read result is a subsequence of the stored log. */
  lemma ReadsAreSubsequences(memories: map<string, seq<MemoryEntry>>, conversationId: string, agentId: string, topic: string, limit: int)
    requires conversationId in memories
    ensures Subsequence(History(memories, conversationId, limit), memories[conversationId])
    ensures Subsequence(AgentMemory(memories, agentId, conversationId, limit), memories[conversationId])
    ensures Subsequence(RelevantContext(memories, conversationId, topic, limit), memories[conversationId])
  {
    var log := memories[conversationId];
    SubsequenceRefl(log);
    PyTailIsSubsequence(log, log, limit);
    FilterIsSubsequence(log, ByAgent(agentId));
    PyTailIsSubsequence(Filter(log, ByAgent(agentId)), log, limit);
    FilterIsSubsequence(log, ByKeywords(TopicKeywords(topic)));
    PyTailIsSubsequence(Filter(log, ByKeywords(TopicKeywords(topic))), log, limit);
  }

  /** Only entries of the requested agent come back, and with a large enough limit all of them do. */
  lemma AgentMemoryEntries(memories: map<string, seq<MemoryEntry>>, agentId: string, conversationId: string, limit: int, e: MemoryEntry)
    ensures e in AgentMemory(memories, agentId, conversationId, limit) ==>
      conversationId in memories && e in memories[conversationId] && e.agentId == agentId
    ensures conversationId in memories && limit >= |memories[conversationId]| && e in memories[conversationId] && e.agentId == agentId ==>
      e in AgentMemory(memories, agentId, conversationId, limit)
  {
    if conversationId in memories {
      PyTailMembers(Filter(memories[conversationId], ByAgent(agentId)), limit, e);
    }
  }

  /**
   * An entry is relevant iff some keyword of the topic occurs in its lower-cased
   * content; with a large enough limit every relevant entry comes back.
   */
  lemma RelevantEntries(memories: map<string, seq<MemoryEntry>>, conversationId: string, topic: string, limit: int, e: MemoryEntry)
    ensures e in RelevantContext(memories, conversationId, topic, limit) ==>
      && conversationId in memories && e in memories[conversationId]
      && exists j :: 0 <= j < |TopicKeywords(topic)| && Contains(Lower(e.message.content), TopicKeywords(topic)[j])
    ensures (&& conversationId in memories && limit >= |memories[conversationId]| && e in memories[conversationId]
             && exists j :: 0 <= j < |TopicKeywords(topic)| && Contains(Lower(e.message.content), TopicKeywords(topic)[j]))
      ==> e in RelevantContext(memories, conversationId, topic, limit)
  {
    if conversationId in memories {
      var kept := Filter(memories[conversationId], ByKeywords(TopicKeywords(topic)));
      PyTailMembers(kept, limit, e);
      if e in kept {
        var i :| 0 <= i < |kept| && kept[i] == e;
        assert Matches(ByKeywords(TopicKeywords(topic)), kept[i]);
      }
    }
  }

  lemma FilterNothing(entries: seq<MemoryEntry>)
    ensures Filter(entries, ByKeywords([])) == []
  {
  }

  /** A topic with no words matches nothing. */
  lemma BlankTopicIsIrrelevant(memories: map<string, seq<MemoryEntry>>, conversationId: string, topic: string, limit: int)
    requires forall i :: 0 <= i < |topic| ==> topic[i] in Whitespace
    ensures RelevantContext(memories, conversationId, topic, limit) == []
  {
    var lowered := Lower(topic);
    assert forall i :: 0 <= i < |lowered| ==> lowered[i] == LowerChar(topic[i]);
    WordsOfBlank(lowered);
    assert TopicKeywords(topic) == [];
    if conversationId in memories {
      FilterNothing(memories[conversationId]);
    }
  }

  // ---------------------------------------------------------------- the store

  class InMemoryStorage {
    var memories: map<string, seq<MemoryEntry>>

    constructor ()
      ensures memories == map[]
    {
      memories := map[];
    }

    /** The log of one conversation, empty when it has none. */
    function Log(conversationId: string): seq<MemoryEntry>
      reads this
    {
      if conversationId in memories then memories[conversationId] else []
    }

    /**
     * `store_message`: one entry at the end of that conversation's log (created if
     * absent); a missing or empty context becomes `{}`.  Other logs are unchanged.
     */
    method StoreMessage(conversationId: string, agentId: string, message: AgentMessage, context: Option<map<string, string>>, now: int)
      modifies this
      ensures memories.Keys == old(memories).Keys + {conversationId}
      ensures Log(conversationId) == old(Log(conversationId)) + [MemoryEntry(conversationId, agentId, message, context.GetOr(map[]), DefaultImportance, now)]
      ensures forall id :: id != conversationId ==> Log(id) == old(Log(id))
    {
      if conversationId !in memories {
        memories := memories[conversationId := []];
      }
      var entry := MemoryEntry(conversationId, agentId, message, context.GetOr(map[]), DefaultImportance, now);
      memories := memories[conversationId := memories[conversationId] + [entry]];
    }

    method GetConversationHistory(conversationId: string, limit: int) returns (r: seq<MemoryEntry>)
      ensures r == History(memories, conversationId, limit)
      ensures conversationId !in memories ==> r == []
    {
      if conversationId !in memories {
        return [];
      }
      r := PyTail(memories[conversationId], limit);
    }

    method GetAgentMemory(agentId: string, conversationId: string, limit: int) returns (r: seq<MemoryEntry>)
      ensures r == AgentMemory(memories, agentId, conversationId, limit)
      ensures conversationId !in memories ==> r == []
    {
      if conversationId !in memories {
        return [];
      }
      var agentMemories := Filter(memories[conversationId], ByAgent(agentId));
      r := PyTail(agentMemories, limit);
    }

    /** The keyword scan of `get_relevant_context`, one entry at a time. */
    method GetRelevantContext(conversationId: string, currentTopic: string, limit: int) returns (r: seq<MemoryEntry>)
      ensures r == RelevantContext(memories, conversationId, currentTopic, limit)
      ensures conversationId !in memories ==> r == []
    {
      if conversationId !in memories {
        return [];
      }
      var log := memories[conversationId];
      var relevantEntries: seq<MemoryEntry> := [];
      var topicKeywords := Words(Lower(currentTopic));
      var i := 0;
      while i < |log|
        invariant 0 <= i <= |log|
        invariant relevantEntries == Filter(log[..i], ByKeywords(topicKeywords))
      {
        var contentLower := Lower(log[i].message.content);
        if AnyKeywordIn(contentLower, topicKeywords) {
          relevantEntries := relevantEntries + [log[i]];
        }
        assert log[..i + 1][..i] == log[..i];
        i := i + 1;
      }
      assert log[..i] == log;
      r := PyTail(relevantEntries, limit);
    }

    /** `clear_conversation_memory`: only that conversation's log goes. */
    method ClearConversationMemory(conversationId: string)
      modifies this
      ensures memories == old(memories) - {conversationId}
      ensures Log(conversationId) == []
      ensures forall id :: id != conversationId ==> Log(id) == old(Log(id))
    {
      if conversationId in memories {
        memories := memories - {conversationId};
      }
    }
  }
}

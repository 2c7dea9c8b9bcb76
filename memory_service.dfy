/**
 * The conversation snapshot store: the choice of backend, the fallback to the
 * in-memory backend, the in-memory operations over a dictionary from ids to
 * conversations, and the public wrappers that turn every failure into a
 * harmless return value.  What a Redis or PostgreSQL backend does is not part
 * of this model: its outcome is a parameter.
 */
module MemoryServices {
  import opened Wrappers
  import opened PyDicts
  import opened Models

  /** The storage backends the factory knows. */
  datatype Backend = InMemoryBackend | RedisBackend | PostgresBackend

  /** `MemoryServiceFactory.create_service`: anything but the three names is a ValueError. */
  function CreateService(memoryType: string): (r: Result<Backend>)
    ensures r.Ok? <==> memoryType in {"inmemory", "redis", "postgresql"}
    ensures r.Err? ==> r.error == ValueError
    ensures r == Ok(InMemoryBackend) <==> memoryType == "inmemory"
    ensures r == Ok(RedisBackend) <==> memoryType == "redis"
    ensures r == Ok(PostgresBackend) <==> memoryType == "postgresql"
  {
    if memoryType == "inmemory" then Ok(InMemoryBackend)
    else if memoryType == "redis" then Ok(RedisBackend)
    else if memoryType == "postgresql" then Ok(PostgresBackend)
    else Err(ValueError)
  }

  /**
   * The memory type `_setup_memory` settles on.  `clientReady` says whether the
   * Redis client or the PostgreSQL driver could be set up; when it could not,
   * the service falls back to the in-memory store.
   */
  function ResolvedMemoryType(configured: string, clientReady: bool): (t: string)
    ensures t in {"inmemory", "redis", "postgresql"}
    ensures configured !in {"redis", "postgresql"} ==> t == "inmemory"
    ensures t != "inmemory" <==> configured in {"redis", "postgresql"} && clientReady
    ensures t != "inmemory" ==> t == configured
  {
    if (configured == "redis" || configured == "postgresql") && clientReady then configured else "inmemory"
  }

  /** What a call into a foreign backend did: return a value or raise. */
  datatype Foreign<+T> = Returned(value: T) | Raised

  /** A wrapper's answer: the backend's value, or `fallback` when it raised. */
  function Caught<T>(outcome: Foreign<T>, fallback: T): (r: T)
    ensures outcome.Raised? ==> r == fallback
    ensures outcome.Returned? ==> r == outcome.value
  {
    match outcome
    case Returned(v) => v
    case Raised => fallback
  }

  class MemoryService {
    var memoryType: string
    /** The in-memory store, in insertion order; unused by the other backends. */
    var conversations: Dict<string, Conversation>

    ghost predicate Valid()
      reads this
    {
      && conversations.Valid()
      && memoryType in {"inmemory", "redis", "postgresql"}
    }

    predicate InMemory()
      reads this
    {
      memoryType != "redis" && memoryType != "postgresql"
    }

    /** `MemoryService()` with `settings.memory_type == configured`. */
    constructor (configured: string, clientReady: bool)
      ensures Valid()
      ensures memoryType == ResolvedMemoryType(configured, clientReady)
      ensures conversations == EmptyDict()
    {
      memoryType := ResolvedMemoryType(configured, clientReady);
      conversations := EmptyDict();
    }

    // ------------------------------------------------------------ in-memory branches

    /** `_save_to_inmemory`: stored under its id, replacing what was there. */
    method SaveToInmemory(c: Conversation) returns (ok: bool)
      requires Valid()
      modifies this
      ensures Valid() && memoryType == old(memoryType)
      ensures conversations == old(conversations).Set(c.id, c)
      ensures conversations.Get(c.id) == Some(c)
      ensures ok
    {
      conversations := conversations.Set(c.id, c);
      ok := true;
    }

    /** `_load_from_inmemory`: the conversation last saved under that id, if any. */
    method LoadFromInmemory(conversationId: string) returns (r: Option<Conversation>)
      requires Valid()
      ensures r == conversations.Get(conversationId)
      ensures r.Some? <==> conversationId in conversations.entries
    {
      r := conversations.Get(conversationId);
    }

    /** `_delete_from_inmemory`: True and removed iff the id was stored. */
    method DeleteFromInmemory(conversationId: string) returns (ok: bool)
      requires Valid()
      modifies this
      ensures Valid() && memoryType == old(memoryType)
      ensures ok == (conversationId in old(conversations).entries)
      ensures conversations == if ok then old(conversations).Remove(conversationId) else old(conversations)
      ensures conversationId !in conversations.entries
    {
      if conversationId in conversations.entries {
        conversations := conversations.Remove(conversationId);
        return true;
      }
      return false;
    }

    /** `_list_from_inmemory`: every stored conversation, in insertion order. */
    method ListFromInmemory() returns (r: seq<Conversation>)
      requires Valid()
      ensures r == conversations.Values()
      ensures |r| == |conversations.keys|
      ensures forall c :: c in r <==> c in conversations.entries.Values
    {
      r := conversations.Values();
      forall c | c in conversations.entries.Values
        ensures c in r
      {
        var k :| k in conversations.entries && conversations.entries[k] == c;
        var i :| 0 <= i < |conversations.keys| && conversations.keys[i] == k;
        assert r[i] == c;
      }
    }

    // ------------------------------------------------------------ public wrappers

    /**
     * `save_conversation`: the in-memory branch, or the foreign outcome of the
     * other backends; an exception becomes False.
     */
    method SaveConversation(c: Conversation, foreign: Foreign<bool>) returns (ok: bool)
      requires Valid()
      modifies this
      ensures Valid() && memoryType == old(memoryType)
      ensures InMemory() ==> conversations == old(conversations).Set(c.id, c) && ok
      ensures !InMemory() ==> conversations == old(conversations) && ok == Caught(foreign, false)
    {
      if memoryType == "redis" || memoryType == "postgresql" {
        return Caught(foreign, false);
      }
      ok := SaveToInmemory(c);
    }

    /** `load_conversation`: an exception becomes None. */
    method LoadConversation(conversationId: string, foreign: Foreign<Option<Conversation>>) returns (r: Option<Conversation>)
      requires Valid()
      ensures InMemory() ==> r == conversations.Get(conversationId)
      ensures !InMemory() ==> r == Caught(foreign, None)
    {
      if memoryType == "redis" || memoryType == "postgresql" {
        return Caught(foreign, None);
      }
      r := LoadFromInmemory(conversationId);
    }

    /** `delete_conversation`: an exception becomes False. */
    method DeleteConversation(conversationId: string, foreign: Foreign<bool>) returns (ok: bool)
      requires Valid()
      modifies this
      ensures Valid() && memoryType == old(memoryType)
      ensures InMemory() ==> ok == (conversationId in old(conversations).entries)
      ensures InMemory() ==> conversations == old(conversations).Remove(conversationId)
      ensures !InMemory() ==> conversations == old(conversations) && ok == Caught(foreign, false)
    {
      if memoryType == "redis" || memoryType == "postgresql" {
        return Caught(foreign, false);
      }
      ok := DeleteFromInmemory(conversationId);
      if !ok {
        assert Without(conversations.keys, conversationId) == conversations.keys by {
          WithoutAbsent(conversations.keys, conversationId);
        }
        assert conversations.entries - {conversationId} == conversations.entries;
      }
    }

    /** `list_conversations`: an exception becomes the empty list. */
    method ListConversations(foreign: Foreign<seq<Conversation>>) returns (r: seq<Conversation>)
      requires Valid()
      ensures InMemory() ==> r == conversations.Values()
      ensures !InMemory() ==> r == Caught(foreign, [])
    {
      if memoryType == "redis" || memoryType == "postgresql" {
        return Caught(foreign, []);
      }
      r := ListFromInmemory();
    }
  }
}

/** Conversation sessions, their messages, and per-agent memories with expiry. */
module MemoryService {
  import opened Wrappers
  import opened JsonData
  import opened Seqs
  import opened MemoryModel

  /** The number of seconds in `ttl_hours` hours. */
  const SecondsPerHour: int := 3600

  /** `get_conversation_history`'s default `limit`. */
  const DefaultHistoryLimit: nat := 50

  /** Timestamps never decrease in insertion order (a clock that does not go back). */
  predicate Chronological(messages: seq<Message>) {
    forall i, j :: 0 <= i < j < |messages| ==> messages[i].timestamp <= messages[j].timestamp
  }

  /** The messages of context `contextId`, in insertion order. */
  function MessagesOf(messages: seq<Message>, contextId: nat): seq<Message> {
    Filter(messages, InContext(contextId))
  }

  function InContext(contextId: nat): Message -> bool {
    (m: Message) => m.contextId == contextId
  }

  function Timestamp(m: Message): int {
    m.timestamp
  }

  /** A session's messages, like all messages, are in timestamp order. */
  lemma MessagesOfChronological(messages: seq<Message>, contextId: nat)
    requires Chronological(messages)
    ensures Chronological(MessagesOf(messages, contextId))
  {
    FilterKeepsOrder(messages, InContext(contextId), Timestamp);
  }

  /** A session's newest `limit` messages, newest first. */
  function History(messages: seq<Message>, contextId: nat, limit: nat): seq<Message> {
    Take(Reverse(MessagesOf(messages, contextId)), limit)
  }

  /**
   * The history holds min(limit, n) of the session's n messages, each no more
   * often than the session holds it, all of that session, newest first, and every message it leaves out is no newer than
   * every message it returns.
   */
  lemma HistoryNewestFirst(messages: seq<Message>, contextId: nat, limit: nat)
    requires Chronological(messages)
    ensures var h, all := History(messages, contextId, limit), MessagesOf(messages, contextId);
      && |h| == (if limit < |all| then limit else |all|)
      && multiset(h) <= multiset(all)
      && (forall i :: 0 <= i < |h| ==> h[i] in messages && h[i].contextId == contextId)
      && (forall i, j :: 0 <= i < j < |h| ==> h[i].timestamp >= h[j].timestamp)
      && (forall m :: m in all && m !in h ==> forall i :: 0 <= i < |h| ==> m.timestamp <= h[i].timestamp)
  {
    var all := MessagesOf(messages, contextId);
    MessagesOfChronological(messages, contextId);
    var h := History(messages, contextId, limit);
    HistoryWithin(messages, contextId, limit);
    assert forall i :: 0 <= i < |h| ==> h[i] == all[|all| - 1 - i];
    forall m | m in all && m !in h ensures forall i :: 0 <= i < |h| ==> m.timestamp <= h[i].timestamp {
      OmittedIsOlder(all, h, m);
    }
  }

  lemma HistoryWithin(messages: seq<Message>, contextId: nat, limit: nat)
    ensures multiset(History(messages, contextId, limit)) <= multiset(MessagesOf(messages, contextId))
  {
    ReverseMultiset(MessagesOf(messages, contextId));
    TakeMultiset(Reverse(MessagesOf(messages, contextId)), limit);
  }

  lemma OmittedIsOlder(all: seq<Message>, h: seq<Message>, m: Message)
    requires Chronological(all)
    requires |h| <= |all| && forall i :: 0 <= i < |h| ==> h[i] == all[|all| - 1 - i]
    requires m in all && m !in h
    ensures forall i :: 0 <= i < |h| ==> m.timestamp <= h[i].timestamp
  {
    forall x | |all| - |h| <= x < |all| ensures all[x] in h {
      assert h[|all| - 1 - x] == all[x];
    }
    var k :| 0 <= k < |all| && all[k] == m;
    assert k < |all| - |h|;
  }

  /** `expires_at` for a given `ttl_hours`: set only when the ttl is truthy (not None, not 0). */
  function ExpiryFor(ttlHours: Option<int>, now: int): (r: Option<int>)
    ensures r.None? <==> ttlHours.None? || ttlHours.value == 0
  {
    if ttlHours.Some? && ttlHours.value != 0 then Some(now + ttlHours.value * SecondsPerHour) else None
  }

  /** The memory-type filter: applied only when the type is given and non-empty. */
  predicate TypeMatches(m: AgentMemory, memoryType: Option<string>) {
    memoryType.None? || memoryType.value == "" || m.memoryType == memoryType.value
  }

  /** `get_agent_memory`'s query: agent, session, optional type, and not yet expired. */
  predicate Readable(m: AgentMemory, agentId: int, sessionId: string, memoryType: Option<string>, now: int) {
    m.agentId == agentId && m.sessionId == sessionId && TypeMatches(m, memoryType) && Live(m, now)
  }

  /** The memories `get_agent_memory` returns, in row order. */
  function ReadMemories(memories: seq<AgentMemory>, agentId: int, sessionId: string, memoryType: Option<string>, now: int): (r: seq<AgentMemory>)
    ensures forall i :: 0 <= i < |r| ==> r[i] in memories && Readable(r[i], agentId, sessionId, memoryType, now)
    ensures forall i :: 0 <= i < |memories| && Readable(memories[i], agentId, sessionId, memoryType, now) ==> memories[i] in r
  {
    if memories == [] then []
    else
      var last := memories[|memories| - 1];
      ReadMemories(memories[..|memories| - 1], agentId, sessionId, memoryType, now)
        + (if Readable(last, agentId, sessionId, memoryType, now) then [last] else [])
  }

  /** The memories `cleanup_expired_memories` keeps, in row order. */
  function Unexpired(memories: seq<AgentMemory>, now: int): (r: seq<AgentMemory>)
    ensures forall i :: 0 <= i < |r| ==> r[i] in memories && !Expired(r[i], now)
    ensures forall i :: 0 <= i < |memories| && !Expired(memories[i], now) ==> memories[i] in r
  {
    if memories == [] then []
    else
      var last := memories[|memories| - 1];
      Unexpired(memories[..|memories| - 1], now) + (if Expired(last, now) then [] else [last])
  }

  /** How many memories are expired at `now`. */
  function CountExpired(memories: seq<AgentMemory>, now: int): nat {
    if memories == [] then 0
    else CountExpired(memories[..|memories| - 1], now) + (if Expired(memories[|memories| - 1], now) then 1 else 0)
  }

  /** The cleanup delete is the exact complement of the read filter. */
  lemma LiveIffNotExpired(m: AgentMemory, now: int)
    ensures Live(m, now) <==> !Expired(m, now)
  {
  }

  /** Deleting expired memories changes no read made at the same `now`. */
  lemma {:induction false} CleanupPreservesReads(memories: seq<AgentMemory>, now: int, agentId: int, sessionId: string, memoryType: Option<string>)
    ensures ReadMemories(Unexpired(memories, now), agentId, sessionId, memoryType, now)
         == ReadMemories(memories, agentId, sessionId, memoryType, now)
  {
    if memories != [] {
      var init, last := memories[..|memories| - 1], memories[|memories| - 1];
      CleanupPreservesReads(init, now, agentId, sessionId, memoryType);
      var kept := Unexpired(memories, now);
      if !Expired(last, now) {
        assert kept[..|kept| - 1] == Unexpired(init, now);
        assert kept[|kept| - 1] == last;
      } else {
        assert kept == Unexpired(init, now);
      }
    }
  }

  /** The deleted count plus the kept count is the old table size. */
  lemma {:induction false} CleanupCount(memories: seq<AgentMemory>, now: int)
    ensures CountExpired(memories, now) + |Unexpired(memories, now)| == |memories|
  {
    if memories != [] {
      CleanupCount(memories[..|memories| - 1], now);
    }
  }

  /**
   * A memory saved with a positive ttl is readable right away; one saved with
   * a negative ttl is already expired; one saved with no ttl or ttl 0 never expires.
   */
  lemma SavedMemoryLifetime(m: AgentMemory, ttlHours: Option<int>, now: int)
    requires m.expiresAt == ExpiryFor(ttlHours, now)
    ensures ttlHours.Some? && ttlHours.value > 0 ==> Live(m, now) && Expired(m, now + ttlHours.value * SecondsPerHour)
    ensures ttlHours.Some? && ttlHours.value < 0 ==> Expired(m, now)
    ensures ttlHours.None? || ttlHours.value == 0 ==> forall t :: Live(m, t)
  {
  }

  /** The summary `get_context_summary` returns for a known session. */
  datatype ContextSummary = ContextSummary(
    sessionId: string,
    userId: string,
    createdAt: int,
    messageCount: nat,
    lastActivity: Option<int>,
    metadata: Json)

  /** The `conversation_contexts`, `messages` and `agent_memories` tables. */
  class MemoryStore {
    var contexts: seq<ConversationContext>
    var messages: seq<Message>
    var memories: seq<AgentMemory>
    var nextMemoryId: nat

    /**
     * Ids are positions + 1 for contexts and messages; session ids are
     * unique; every message belongs to a context; message timestamps never
     * decrease in insertion order; memory ids are below the next id.
     */
    predicate Valid()
      reads this
    {
      && (forall i :: 0 <= i < |contexts| ==> contexts[i].id == i + 1)
      && (forall i, j :: 0 <= i < j < |contexts| ==> contexts[i].sessionId != contexts[j].sessionId)
      && (forall i :: 0 <= i < |messages| ==> messages[i].id == i + 1 && 1 <= messages[i].contextId <= |contexts|)
      && (forall i, j :: 0 <= i < j < |messages| ==> messages[i].timestamp <= messages[j].timestamp)
      && (forall i :: 0 <= i < |memories| ==> memories[i].id < nextMemoryId)
    }

    constructor ()
      ensures Valid() && contexts == [] && messages == [] && memories == []
    {
      contexts, messages, memories, nextMemoryId := [], [], [], 1;
    }

    /** The clock has not gone back since the last message was stored. */
    predicate ClockAtLeast(now: int)
      reads this
    {
      forall i :: 0 <= i < |messages| ==> messages[i].timestamp <= now
    }

    /** `get_session`: the context with this session id, if any. */
    function GetSession(sessionId: string): (r: Option<ConversationContext>)
      reads this
      requires Valid()
      ensures r.Some? <==> exists i :: 0 <= i < |contexts| && contexts[i].sessionId == sessionId
      ensures r.Some? ==> r.value in contexts && r.value.sessionId == sessionId
    {
      SessionIn(contexts, sessionId)
    }

    /**
     * `create_session`: adds one context with the given (fresh) session id and
     * user, metadata defaulting to {}. A session id already present violates
     * the unique column and adds nothing.
     */
    method CreateSession(userId: string, metadata: Option<Json>, sessionId: string, now: int)
      returns (r: Result<ConversationContext>)
      requires Valid()
      modifies this
      ensures Valid()
      ensures messages == old(messages) && memories == old(memories)
      ensures old(GetSession(sessionId)).Some? ==> r.Err? && contexts == old(contexts)
      ensures old(GetSession(sessionId)).None? ==>
        && r == Ok(ConversationContext(|old(contexts)| + 1, sessionId, userId, now, None, OrEmpty(metadata)))
        && contexts == old(contexts) + [r.value]
    {
      if GetSession(sessionId).Some? {
        return Err("UNIQUE constraint failed: conversation_contexts.session_id");
      }
      var context := ConversationContext(|contexts| + 1, sessionId, userId, now, None, OrEmpty(metadata));
      contexts := contexts + [context];
      r := Ok(context);
    }

    /**
     * `add_message`: an unknown session raises and adds nothing; otherwise one
     * message is appended to that context and the context's `updatedAt` is
     * set to `now`.
     */
    method AddMessage(sessionId: string, role: string, content: string, agentId: Option<int>, metadata: Option<Json>, now: int)
      returns (r: Result<Message>)
      requires Valid() && ClockAtLeast(now)
      modifies this
      ensures Valid()
      ensures memories == old(memories)
      ensures old(GetSession(sessionId)).None? ==>
        r == Err("Session " + sessionId + " not found") && contexts == old(contexts) && messages == old(messages)
      ensures old(GetSession(sessionId)).Some? ==>
        var c := old(GetSession(sessionId)).value;
        && r == Ok(Message(|old(messages)| + 1, c.id, agentId, role, content, now, OrEmpty(metadata)))
        && messages == old(messages) + [r.value]
        && contexts == old(contexts)[c.id - 1 := c.(updatedAt := Some(now))]
    {
      var context := GetSession(sessionId);
      if context.None? {
        return Err("Session " + sessionId + " not found");
      }
      var c := context.value;
      var message := Message(|messages| + 1, c.id, agentId, role, content, now, OrEmpty(metadata));
      messages := messages + [message];
      contexts := contexts[c.id - 1 := c.(updatedAt := Some(now))];
      r := Ok(message);
    }

    /**
     * `get_conversation_history`: [] for an unknown session, otherwise that
     * session's newest `limit` messages, newest first.
     */
    function GetConversationHistory(sessionId: string, limit: nat): (r: seq<Message>)
      reads this
      requires Valid()
      ensures GetSession(sessionId).None? ==> r == []
      ensures GetSession(sessionId).Some? ==> r == History(messages, GetSession(sessionId).value.id, limit)
    {
      match GetSession(sessionId)
      case None => []
      case Some(c) => History(messages, c.id, limit)
    }

    /**
     * `save_agent_memory`: appends one memory; its expiry is `now` plus the ttl
     * in hours when the ttl is truthy, and absent otherwise.
     */
    method SaveAgentMemory(agentId: int, sessionId: string, memoryType: string, content: Json, ttlHours: Option<int>, now: int)
      returns (m: AgentMemory)
      requires Valid()
      modifies this
      ensures Valid()
      ensures contexts == old(contexts) && messages == old(messages)
      ensures m == AgentMemory(old(nextMemoryId), agentId, sessionId, memoryType, content, now, ExpiryFor(ttlHours, now))
      ensures memories == old(memories) + [m]
    {
      m := AgentMemory(nextMemoryId, agentId, sessionId, memoryType, content, now, ExpiryFor(ttlHours, now));
      memories := memories + [m];
      nextMemoryId := nextMemoryId + 1;
    }

    /** `get_agent_memory` at time `now`. */
    function GetAgentMemory(agentId: int, sessionId: string, memoryType: Option<string>, now: int): (r: seq<AgentMemory>)
      reads this
      ensures forall m :: m in r <==> m in memories && Readable(m, agentId, sessionId, memoryType, now)
    {
      ReadMemories(memories, agentId, sessionId, memoryType, now)
    }

    /**
     * `cleanup_expired_memories` at time `now`: deletes exactly the expired
     * memories and returns how many; reads at the same `now` are unchanged.
     */
    method CleanupExpiredMemories(now: int) returns (deleted: nat)
      requires Valid()
      modifies this
      ensures Valid()
      ensures contexts == old(contexts) && messages == old(messages)
      ensures memories == Unexpired(old(memories), now)
      ensures deleted == CountExpired(old(memories), now)
      ensures forall agentId, sessionId, memoryType ::
        ReadMemories(memories, agentId, sessionId, memoryType, now) == ReadMemories(old(memories), agentId, sessionId, memoryType, now)
    {
      var kept := Unexpired(memories, now);
      CleanupCount(memories, now);
      forall agentId, sessionId, memoryType
        ensures ReadMemories(kept, agentId, sessionId, memoryType, now) == ReadMemories(memories, agentId, sessionId, memoryType, now)
      {
        CleanupPreservesReads(memories, now, agentId, sessionId, memoryType);
      }
      deleted := |memories| - |kept|;
      memories := kept;
    }

    /**
     * `get_context_summary`: nothing for an unknown session; otherwise the
     * session's details and the size of its default-limit history.
     */
    function GetContextSummary(sessionId: string): (r: Option<ContextSummary>)
      reads this
      requires Valid()
      ensures r.None? <==> GetSession(sessionId).None?
      ensures r.Some? ==>
        var c := GetSession(sessionId).value;
        && r.value.userId == c.userId && r.value.createdAt == c.createdAt
        && r.value.lastActivity == c.updatedAt && r.value.metadata == c.metadata
        && var n := |MessagesOf(messages, c.id)|;
           r.value.messageCount == if n < DefaultHistoryLimit then n else DefaultHistoryLimit
    {
      match GetSession(sessionId)
      case None => None
      case Some(c) =>
        Some(ContextSummary(sessionId, c.userId, c.createdAt,
          |GetConversationHistory(sessionId, DefaultHistoryLimit)|, c.updatedAt, c.metadata))
    }
  }

  /** The context with this session id, if any (session ids are unique). */
  function SessionIn(contexts: seq<ConversationContext>, sessionId: string): (r: Option<ConversationContext>)
    ensures r.Some? <==> exists i :: 0 <= i < |contexts| && contexts[i].sessionId == sessionId
    ensures r.Some? ==> r.value in contexts && r.value.sessionId == sessionId
  {
    if contexts == [] then None
    else if contexts[0].sessionId == sessionId then Some(contexts[0])
    else
      var r := SessionIn(contexts[1..], sessionId);
      assert forall i :: 1 <= i < |contexts| ==> contexts[i] == contexts[1..][i - 1];
      r
  }
}

/** The conversation and agent-memory tables. */
module MemoryModel {
  import opened Wrappers
  import opened JsonData

  /** One row of `conversation_contexts`; `sessionId` is unique. */
  datatype ConversationContext = ConversationContext(
    id: nat,
    sessionId: string,
    userId: string,
    createdAt: int,
    updatedAt: Option<int>,
    metadata: Json)

  /** One row of `messages`: it belongs to context `contextId`; the agent is optional. */
  datatype Message = Message(
    id: nat,
    contextId: nat,
    agentId: Option<int>,
    role: string,
    content: string,
    timestamp: int,
    metadata: Json)

  /**
   * One row of `agent_memories`, looked up by agent, session and memory type.
   * An absent `expiresAt` means the memory never expires.
   */
  datatype AgentMemory = AgentMemory(
    id: nat,
    agentId: int,
    sessionId: string,
    memoryType: string,
    content: Json,
    createdAt: int,
    expiresAt: Option<int>)

  /** The read-side filter: no expiry, or an expiry later than `now`. */
  predicate Live(m: AgentMemory, now: int) {
    m.expiresAt.None? || m.expiresAt.value > now
  }

  /** The cleanup condition: an expiry that is set and not later than `now`. */
  predicate Expired(m: AgentMemory, now: int) {
    m.expiresAt.Some? && m.expiresAt.value <= now
  }
}

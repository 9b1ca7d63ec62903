/**
 * The three tables of the chat store (backend/database/models.py).
 * Database timestamps are integer instants supplied by the clock.
 */
module Models {
  import opened Common

  /** The title a conversation gets until its first message names it. */
  const DefaultTitle: string := "مکالمه جدید"

  /** One chat session; `id` is the auto-incremented primary key. */
  datatype Conversation = Conversation(
    id: nat,
    sessionId: string,
    title: string,
    createdAt: int,
    updatedAt: int,
    isActive: bool)

  /** One turn of a session; `role` is "user", "assistant" or "system". */
  datatype Message = Message(
    id: nat,
    conversationId: nat,
    role: string,
    content: string,
    timestamp: int,
    tokens: int)

  /** A remembered fact about the user; `category` is "preference", "fact" or "context". */
  datatype Memory = Memory(
    id: nat,
    key: string,
    value: string,
    category: string,
    importance: int,
    createdAt: int,
    expiresAt: Option<int>)

  /**
   * A conversation row as inserted: both stamps default to the insertion
   * time and the row is active.
   */
  function NewConversation(id: nat, sessionId: string, title: string, now: int): (c: Conversation)
    ensures c.id == id && c.sessionId == sessionId && c.title == title
    ensures c.isActive && c.createdAt == now && c.updatedAt == now
  {
    Conversation(id, sessionId, title, now, now, true)
  }

  /** A message row as inserted: its timestamp defaults to the insertion time. */
  function NewMessage(id: nat, conversationId: nat, role: string, content: string, now: int, tokens: int): (m: Message)
    ensures m.id == id && m.conversationId == conversationId && m.role == role && m.content == content
    ensures m.timestamp == now && m.tokens == tokens
  {
    Message(id, conversationId, role, content, now, tokens)
  }

  /** A memory row as inserted: stamped at the insertion time and never expiring. */
  function NewMemory(id: nat, key: string, value: string, category: string, importance: int, now: int): (m: Memory)
    ensures m.id == id && m.key == key && m.value == value && m.category == category && m.importance == importance
    ensures m.createdAt == now && m.expiresAt.None?
  {
    Memory(id, key, value, category, importance, now, None)
  }
}

/**
 * The two tables of the chat store, `chat_sessions` and `chat_messages`, as
 * records, with the constraints the table definitions declare gathered into
 * one store invariant. Timestamps are readings of a store clock (`nat`).
 */
module ChatModels {

  /** A row of `chat_sessions`; `sessionId` is the primary key. */
  datatype ChatSession = ChatSession(sessionId: string, userId: string, channel: string, createdAt: nat)

  /**
   * A row of `chat_messages`; `id` is the integer primary key and
   * `sessionId` a foreign key to `chat_sessions`. The message type is
   * documented as "user" or "bot" but nothing enforces it.
   */
  datatype ChatMessage = ChatMessage(
    id: nat,
    sessionId: string,
    sender: string,
    content: string,
    messageType: string,
    createdAt: nat)

  const UserMessageType := "user"
  const BotMessageType := "bot"

  /** Primary key of `chat_sessions`: no two stored sessions share an id. */
  predicate SessionIdsUnique(sessions: seq<ChatSession>) {
    forall i, j :: 0 <= i < j < |sessions| ==> sessions[i].sessionId != sessions[j].sessionId
  }

  predicate HasSession(sessions: seq<ChatSession>, sessionId: string) {
    exists s :: s in sessions && s.sessionId == sessionId
  }

  /** Integer primary key of `chat_messages`, assigned 1, 2, 3, ... in insertion order. */
  predicate MessageIdsSequential(messages: seq<ChatMessage>) {
    forall i :: 0 <= i < |messages| ==> messages[i].id == i + 1
  }

  /** Foreign key: every message refers to a stored session. */
  predicate ForeignKeysHold(sessions: seq<ChatSession>, messages: seq<ChatMessage>) {
    forall m :: m in messages ==> HasSession(sessions, m.sessionId)
  }

  /** `created_at` is stamped at insertion from a clock that never goes back. */
  predicate TimestampsOrdered(messages: seq<ChatMessage>) {
    forall i, j :: 0 <= i <= j < |messages| ==> messages[i].createdAt <= messages[j].createdAt
  }

  /**
   * The store invariant. There is deliberately no constraint on the pair
   * (userId, channel): the table allows several sessions for one pair.
   */
  predicate StoreInvariant(sessions: seq<ChatSession>, messages: seq<ChatMessage>) {
    && SessionIdsUnique(sessions)
    && MessageIdsSequential(messages)
    && ForeignKeysHold(sessions, messages)
    && TimestampsOrdered(messages)
  }

  /** The store invariant makes message ids unique. */
  lemma MessageIdsUnique(sessions: seq<ChatSession>, messages: seq<ChatMessage>, i: nat, j: nat)
    requires StoreInvariant(sessions, messages)
    requires i < |messages| && j < |messages| && i != j
    ensures messages[i].id != messages[j].id
  {
  }

  /**
   * The `messages` relationship of a session: the stored messages whose
   * `sessionId` is the given id, in insertion order.
   */
  function MessagesOf(messages: seq<ChatMessage>, sessionId: string): (r: seq<ChatMessage>)
    ensures |r| <= |messages|
    ensures forall m :: m in r <==> m in messages && m.sessionId == sessionId
    ensures TimestampsOrdered(messages) ==> TimestampsOrdered(r)
    ensures TimestampsOrdered(messages) && |messages| > 0 ==>
              forall m :: m in r ==> m.createdAt <= messages[|messages| - 1].createdAt
  {
    if messages == [] then []
    else
      var last := messages[|messages| - 1];
      var earlier := MessagesOf(messages[..|messages| - 1], sessionId);
      if last.sessionId == sessionId then earlier + [last] else earlier
  }

  /** Appending a message extends exactly its own session's relationship. */
  lemma MessagesOfAppend(messages: seq<ChatMessage>, m: ChatMessage, sessionId: string)
    ensures MessagesOf(messages + [m], sessionId)
            == MessagesOf(messages, sessionId) + (if m.sessionId == sessionId then [m] else [])
  {
    assert (messages + [m])[..|messages|] == messages;
  }
}

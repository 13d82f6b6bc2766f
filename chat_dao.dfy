/**
 * The chat store and its data-access operations (`ChatDAO`): two lookups of
 * sessions, session creation, message creation and the bounded history.
 *
 * The database becomes the object `ChatStore`, whose two tables are
 * sequences in insertion order. Two things the database supplies become
 * inputs: the id `uuid4` would generate is passed in (a taken id is
 * rejected as the primary key would reject it), and the passage of time is
 * an `elapsed` amount by which the store clock advances before a row is
 * stamped.
 */
module ChatDao {
  import opened Wrappers
  import opened PyValues
  import opened ChatModels

  /** Default `limit` of `get_chat_history`. */
  const DefaultHistoryLimit: nat := 10

  /** Constraint names reported when a write violates a key. */
  const SessionPrimaryKey := "chat_sessions.session_id"
  const MessageSessionForeignKey := "chat_messages.session_id"

  predicate IsFor(s: ChatSession, userId: string, channel: string) {
    s.userId == userId && s.channel == channel
  }

  /**
   * The query of `get_session_by_user_and_channel`: a stored session for the
   * pair. `.first()` without an ORDER BY leaves open which one when a pair
   * has several; the model takes the earliest stored.
   */
  function FindByUserAndChannel(sessions: seq<ChatSession>, userId: string, channel: string): (r: Option<ChatSession>)
    ensures r.Some? ==> r.value in sessions && IsFor(r.value, userId, channel)
    ensures r.None? <==> forall s :: s in sessions ==> !IsFor(s, userId, channel)
  {
    if sessions == [] then None
    else if IsFor(sessions[0], userId, channel) then Some(sessions[0])
    else FindByUserAndChannel(sessions[1..], userId, channel)
  }

  /** The query of `get_session_by_id`. */
  function FindById(sessions: seq<ChatSession>, sessionId: string): (r: Option<ChatSession>)
    ensures r.Some? ==> r.value in sessions && r.value.sessionId == sessionId
    ensures r.None? <==> !HasSession(sessions, sessionId)
  {
    if sessions == [] then None
    else if sessions[0].sessionId == sessionId then Some(sessions[0])
    else FindById(sessions[1..], sessionId)
  }

  /** After `create_session(u, c)`, `get_session_by_user_and_channel(u, c)` finds a session. */
  lemma FoundAfterCreate(sessions: seq<ChatSession>, created: ChatSession)
    ensures FindByUserAndChannel(sessions + [created], created.userId, created.channel).Some?
  {
    assert created in sessions + [created];
  }

  /** A pair's first session is the one found for it once it is stored. */
  lemma FirstCreatedIsFound(sessions: seq<ChatSession>, created: ChatSession)
    requires FindByUserAndChannel(sessions, created.userId, created.channel).None?
    ensures FindByUserAndChannel(sessions + [created], created.userId, created.channel) == Some(created)
  {
    var found := FindByUserAndChannel(sessions + [created], created.userId, created.channel);
    assert created in sessions + [created];
    assert found.value !in sessions;
  }

  /** Under the primary key, the session found by id is the only one with that id. */
  lemma {:induction false} FindByIdUnique(sessions: seq<ChatSession>, s: ChatSession)
    requires SessionIdsUnique(sessions)
    requires s in sessions
    ensures FindById(sessions, s.sessionId) == Some(s)
  {
    if sessions[0] != s {
      assert s in sessions[1..];
      FindByIdUnique(sessions[1..], s);
    }
  }

  function Reversed<T>(s: seq<T>): (r: seq<T>)
    ensures |r| == |s|
    ensures forall i :: 0 <= i < |s| ==> r[i] == s[|s| - 1 - i]
  {
    if s == [] then [] else Reversed(s[1..]) + [s[0]]
  }

  /**
   * The query of `get_chat_history`: the session's messages ordered by
   * `created_at` descending, at most `limit` of them. Messages stamped with
   * the same time come newest-inserted first. Entry `i` is the session's
   * `i`-th newest row, so the result is exactly the session's last rows,
   * each once.
   */
  function History(messages: seq<ChatMessage>, sessionId: string, limit: nat): (r: seq<ChatMessage>)
    ensures |r| == if limit < |MessagesOf(messages, sessionId)| then limit else |MessagesOf(messages, sessionId)|
    ensures forall m :: m in r ==> m in messages && m.sessionId == sessionId
    ensures forall i :: 0 <= i < |r| ==>
              r[i] == MessagesOf(messages, sessionId)[|MessagesOf(messages, sessionId)| - 1 - i]
  {
    var newestFirst := Reversed(MessagesOf(messages, sessionId));
    if limit < |newestFirst| then newestFirst[..limit] else newestFirst
  }

  /** Taking a prefix of a sequence reversed from timestamp order keeps it newest first. */
  lemma NewestFirstPrefix(own: seq<ChatMessage>, k: nat)
    requires TimestampsOrdered(own)
    requires k <= |own|
    ensures forall i, j :: 0 <= i < j < k ==> Reversed(own)[i].createdAt >= Reversed(own)[j].createdAt
    ensures forall a, b :: 0 <= b < k <= a < |own| ==> Reversed(own)[a].createdAt <= Reversed(own)[b].createdAt
  {
    var rev := Reversed(own);
    forall i, j | 0 <= i < j < k ensures rev[i].createdAt >= rev[j].createdAt {
      assert rev[i] == own[|own| - 1 - i] && rev[j] == own[|own| - 1 - j];
    }
    forall a, b | 0 <= b < k <= a < |own| ensures rev[a].createdAt <= rev[b].createdAt {
      assert rev[a] == own[|own| - 1 - a] && rev[b] == own[|own| - 1 - b];
    }
  }

  /** The history is ordered by `created_at`, newest first. */
  lemma HistoryNewestFirst(messages: seq<ChatMessage>, sessionId: string, limit: nat)
    requires TimestampsOrdered(messages)
    ensures var r := History(messages, sessionId, limit);
            forall i, j :: 0 <= i < j < |r| ==> r[i].createdAt >= r[j].createdAt
  {
    var own := MessagesOf(messages, sessionId);
    var r := History(messages, sessionId, limit);
    NewestFirstPrefix(own, |r|);
    assert r == Reversed(own)[..|r|];
  }

  /** No message of the session left out of the history is newer than a message in it. */
  lemma HistoryOmitsOnlyOlder(messages: seq<ChatMessage>, sessionId: string, limit: nat)
    requires TimestampsOrdered(messages)
    ensures var r := History(messages, sessionId, limit);
            forall m, x :: m in MessagesOf(messages, sessionId) && m !in r && x in r ==> m.createdAt <= x.createdAt
  {
    var own := MessagesOf(messages, sessionId);
    var r := History(messages, sessionId, limit);
    assert TimestampsOrdered(own);
    LastRowsNewest(own, r);
  }

  /** Of a timestamp-ordered sequence, its last rows taken newest first are no older than the rest. */
  lemma LastRowsNewest(own: seq<ChatMessage>, r: seq<ChatMessage>)
    requires TimestampsOrdered(own)
    requires |r| <= |own|
    requires forall i :: 0 <= i < |r| ==> r[i] == own[|own| - 1 - i]
    ensures forall m, x :: m in own && m !in r && x in r ==> m.createdAt <= x.createdAt
  {
    forall k | |own| - |r| <= k < |own| ensures own[k] in r {
      assert r[|own| - 1 - k] == own[k];
    }
    forall m, x | m in own && m !in r && x in r ensures m.createdAt <= x.createdAt {
      var a :| 0 <= a < |own| && own[a] == m;
      var b :| 0 <= b < |r| && r[b] == x;
      assert own[|own| - 1 - b] == x;
    }
  }

  /**
   * Read after write: a message stamped later than every other message of
   * its session heads that session's history, and everything after it in
   * the history is strictly older. Since the stamps differ, this holds
   * under any order the database gives to equal stamps.
   */
  lemma HistoryShowsLatestWrite(messages: seq<ChatMessage>, m: ChatMessage, limit: nat)
    requires limit > 0
    requires forall x :: x in messages && x.sessionId == m.sessionId ==> x.createdAt < m.createdAt
    ensures var r := History(messages + [m], m.sessionId, limit);
            && r[0] == m
            && forall k :: 1 <= k < |r| ==> r[k].createdAt < m.createdAt
  {
    MessagesOfAppend(messages, m, m.sessionId);
    var earlier := MessagesOf(messages, m.sessionId);
    var r := History(messages + [m], m.sessionId, limit);
    NewestFirstAfterAppend(earlier, m, r);
    forall k | 1 <= k < |r| ensures r[k].createdAt < m.createdAt {
      assert r[k] in earlier;
    }
  }

  /** Newest first over `earlier + [m]`, the appended `m` comes first and the rest come from `earlier`. */
  lemma NewestFirstAfterAppend(earlier: seq<ChatMessage>, m: ChatMessage, r: seq<ChatMessage>)
    requires 1 <= |r| <= |earlier| + 1
    requires forall i :: 0 <= i < |r| ==> r[i] == (earlier + [m])[|earlier| - i]
    ensures r[0] == m
    ensures forall k :: 1 <= k < |r| ==> r[k] in earlier
  {
    forall k | 1 <= k < |r| ensures r[k] in earlier {
      assert r[k] == earlier[|earlier| - k];
    }
  }

  /** The contents of the store at one moment: both tables and the clock. */
  datatype StoreState = StoreState(sessions: seq<ChatSession>, messages: seq<ChatMessage>, clock: nat)

  /**
   * The database behind `ChatDAO`. `Valid` is the store invariant plus the
   * fact that every stamp is a past reading of the clock.
   */
  class ChatStore {
    var sessions: seq<ChatSession>
    var messages: seq<ChatMessage>
    var clock: nat

    ghost predicate Valid()
      reads this
    {
      && StoreInvariant(sessions, messages)
      && forall m :: m in messages ==> m.createdAt <= clock
    }

    function Snapshot(): StoreState
      reads this
    {
      StoreState(sessions, messages, clock)
    }

    constructor ()
      ensures Valid()
      ensures sessions == [] && messages == [] && clock == 0
    {
      sessions, messages, clock := [], [], 0;
    }

    /** `get_session_by_user_and_channel`. */
    method GetSessionByUserAndChannel(userId: string, channel: string) returns (r: Option<ChatSession>)
      ensures r == FindByUserAndChannel(sessions, userId, channel)
    {
      r := FindByUserAndChannel(sessions, userId, channel);
    }

    /**
     * `create_session`: stores a new session for the pair under `newId`,
     * without looking for an existing session of the same pair. An id that
     * is already stored violates the primary key and nothing is written.
     */
    method CreateSession(userId: string, channel: string, newId: string, elapsed: nat)
      returns (r: Result<ChatSession, PyError>)
      requires Valid()
      modifies this
      ensures Valid()
      ensures messages == old(messages)
      ensures HasSession(old(sessions), newId) ==>
                && r == Err(IntegrityError(SessionPrimaryKey))
                && sessions == old(sessions) && clock == old(clock)
      ensures !HasSession(old(sessions), newId) ==>
                && clock == old(clock) + elapsed
                && r == Ok(ChatSession(newId, userId, channel, clock))
                && sessions == old(sessions) + [r.value]
    {
      if FindById(sessions, newId).Some? {
        return Err(IntegrityError(SessionPrimaryKey));
      }
      clock := clock + elapsed;
      var session := ChatSession(newId, userId, channel, clock);
      sessions := sessions + [session];
      r := Ok(session);
      assert forall m :: m in messages ==> HasSession(old(sessions), m.sessionId);
    }

    /** `get_session_by_id`. */
    method GetSessionById(sessionId: string) returns (r: Option<ChatSession>)
      ensures r == FindById(sessions, sessionId)
    {
      r := FindById(sessions, sessionId);
    }

    /**
     * `create_message`: appends one message stamped with the next integer id
     * and the current clock reading, and returns the stored row. A session
     * id that is not stored violates the foreign key and nothing is written.
     */
    method CreateMessage(sender: string, content: string, messageType: string, sessionId: string, elapsed: nat)
      returns (r: Result<ChatMessage, PyError>)
      requires Valid()
      modifies this
      ensures Valid()
      ensures sessions == old(sessions)
      ensures !HasSession(old(sessions), sessionId) ==>
                && r == Err(IntegrityError(MessageSessionForeignKey))
                && messages == old(messages) && clock == old(clock)
      ensures HasSession(old(sessions), sessionId) ==>
                && clock == old(clock) + elapsed
                && r == Ok(ChatMessage(|old(messages)| + 1, sessionId, sender, content, messageType, clock))
                && messages == old(messages) + [r.value]
    {
      if FindById(sessions, sessionId).None? {
        return Err(IntegrityError(MessageSessionForeignKey));
      }
      clock := clock + elapsed;
      var message := ChatMessage(|messages| + 1, sessionId, sender, content, messageType, clock);
      messages := messages + [message];
      r := Ok(message);
    }

    /** `get_chat_history`, with the default limit of 10. */
    method GetChatHistory(session: ChatSession, limit: nat := DefaultHistoryLimit) returns (r: seq<ChatMessage>)
      ensures r == History(messages, session.sessionId, limit)
    {
      r := History(messages, session.sessionId, limit);
    }
  }

  /**
   * Two `create_session` calls for the same pair leave two sessions for it:
   * nothing in the store keeps one session per (user, channel). Whatever
   * the store held, both new sessions are stored, both belong to the pair,
   * and they are distinct rows.
   */
  method TwoSessionsForOnePair(store: ChatStore, userId: string, channel: string, firstId: string, secondId: string)
    returns (first: ChatSession, second: ChatSession)
    requires store.Valid()
    requires !HasSession(store.sessions, firstId) && !HasSession(store.sessions, secondId) && firstId != secondId
    modifies store
    ensures store.Valid()
    ensures store.sessions == old(store.sessions) + [first, second]
    ensures first in store.sessions && second in store.sessions
    ensures IsFor(first, userId, channel) && IsFor(second, userId, channel)
    ensures first.sessionId == firstId && second.sessionId == secondId
  {
    var a := store.CreateSession(userId, channel, firstId, 0);
    assert !HasSession(store.sessions, secondId);
    var b := store.CreateSession(userId, channel, secondId, 0);
    first, second := a.value, b.value;
  }
}

/**
 * One conversation turn, as `process_message_from_channel` runs it: find or
 * create the session of (user, channel), turn the inbound message dict into
 * text, store it, ask the agent, store the reply, deliver the reply.
 *
 * Three things the turn calls are parameters, bundled in `Calls`: the agent
 * (`process_message`), the delivery function the caller passes in, and
 * Python's `str()` of a decoded value. Each call is observable as an entry
 * of an effect trace, which records every write and call of the turn in
 * order; the agent and the delivery may raise.
 */
module MessageProcessor {
  import opened Wrappers
  import opened PyStrings
  import opened PyValues
  import opened ChatModels
  import opened ChatDao
  import WhatsAppService

  const LocationPrefix := "Ubicación recibida: latitud "
  const LongitudeInfix := ", longitud "
  const BotSender := "bot"

  /** The schema every stored message passes through. */
  const MessageSchema := "ChatMessageCreate"

  /** The text stored for a shared location. */
  function LocationText(latitude: string, longitude: string): string {
    LocationPrefix + latitude + LongitudeInfix + longitude
  }

  /**
   * `message_text` as the turn computes it from the message dict: with a
   * "location" key, the location text built from `message["location"]`'s
   * "latitude" and "longitude" (read in that order); otherwise
   * `message.get("text", {}).get("body", "")`, which may be any value.
   */
  function MessageText(message: map<string, Json>, show: Json -> string): Result<Json, PyError> {
    if "location" in message then
      var latitude :- Subscript(message["location"], Name("latitude"));
      var longitude :- Subscript(message["location"], Name("longitude"));
      Ok(JStr(LocationText(show(latitude), show(longitude))))
    else
      var text :- Get(JDict(message), "text", JDict(map[]));
      Get(text, "body", JStr(""))
  }

  /** The `content` field of `ChatMessageCreate`: only a string validates. */
  function ContentOf(v: Json): (r: Result<string, PyError>)
    ensures r.Ok? <==> v.JStr?
    ensures r.Ok? ==> r.value == v.s
    ensures r.Err? ==> r.error == ValidationError(MessageSchema, "content")
  {
    if v.JStr? then Ok(v.s) else Err(ValidationError(MessageSchema, "content"))
  }

  /**
   * Inbound normalisation: the text of the message, or the exception raised
   * before the user's message is stored. With a location only the
   * coordinate reads can fail (a missing key, or a value that is not a
   * dict); without one only the `.get` on a "text" that is not a dict, or a
   * body that is not a string.
   */
  function NormaliseInbound(message: map<string, Json>, show: Json -> string): (r: Result<string, PyError>)
    ensures "location" in message && r.Err? ==> r.error.KeyError? || r.error.TypeError?
    ensures "location" !in message && r.Err? ==> r.error.AttributeError? || r.error.ValidationError?
  {
    var text :- MessageText(message, show);
    ContentOf(text)
  }

  /** A location takes precedence: whatever "text" accompanies it is ignored. */
  lemma LocationTakesPrecedence(message: map<string, Json>, text: Json, show: Json -> string)
    requires "location" in message
    ensures NormaliseInbound(message["text" := text], show) == NormaliseInbound(message, show)
  {
    assert message["text" := text]["location"] == message["location"];
  }

  /**
   * The cases of a shared location: a value that is not a dict cannot be
   * subscripted by name; a missing latitude is reported before a missing
   * longitude; both present give the location text of their `str()`.
   */
  lemma LocationCases(message: map<string, Json>, show: Json -> string)
    requires "location" in message
    ensures var loc := message["location"];
            !loc.JDict? ==> NormaliseInbound(message, show).Err? && NormaliseInbound(message, show).error.TypeError?
    ensures var loc := message["location"];
            loc.JDict? && "latitude" !in loc.fields ==> NormaliseInbound(message, show) == Err(KeyError(Name("latitude")))
    ensures var loc := message["location"];
            loc.JDict? && "latitude" in loc.fields && "longitude" !in loc.fields ==>
              NormaliseInbound(message, show) == Err(KeyError(Name("longitude")))
    ensures var loc := message["location"];
            loc.JDict? && "latitude" in loc.fields && "longitude" in loc.fields ==>
              NormaliseInbound(message, show) == Ok(LocationText(show(loc.fields["latitude"]), show(loc.fields["longitude"])))
  {
  }

  /**
   * Without a location: no "text", or a "text" dict without "body", gives
   * ""; a string body is the text; a "text" that is not a dict has no `get`;
   * a body that is not a string is refused by the message schema.
   */
  lemma TextWithoutLocation(message: map<string, Json>, show: Json -> string)
    requires "location" !in message
    ensures "text" !in message ==> NormaliseInbound(message, show) == Ok("")
    ensures "text" in message && !message["text"].JDict? ==>
              NormaliseInbound(message, show)
              == Err(AttributeError("'" + TypeName(message["text"]) + "' object has no attribute 'get'"))
    ensures "text" in message && message["text"].JDict? && "body" !in message["text"].fields ==>
              NormaliseInbound(message, show) == Ok("")
    ensures "text" in message && message["text"].JDict? && "body" in message["text"].fields ==>
              var body := message["text"].fields["body"];
              && (body.JStr? ==> NormaliseInbound(message, show) == Ok(body.s))
              && (!body.JStr? ==> NormaliseInbound(message, show) == Err(ValidationError(MessageSchema, "content")))
  {
  }

  /**
   * Every message `handle_incoming_message` queues for a turn is a dict, so
   * the dict the turn reads covers everything the WhatsApp channel sends it.
   */
  lemma QueuedMessageIsDict(data: Json)
    ensures var task := WhatsAppService.Handling(data).1;
            task.Some? ==> task.value.message.JDict? && task.value.channel == "whatsapp"
  {
    WhatsAppService.HandlingOutcomes(data);
  }

  /** Reads the two coordinates back out of a stored location text. */
  function CoordinatesOf(text: string): Option<(string, string)> {
    if |text| < |LocationPrefix| || text[..|LocationPrefix|] != LocationPrefix then None
    else
      var rest := text[|LocationPrefix|..];
      var i := FirstIndexOf(rest, ',');
      if |rest| - i < |LongitudeInfix| || rest[i..i + |LongitudeInfix|] != LongitudeInfix then None
      else Some((rest[..i], rest[i + |LongitudeInfix|..]))
  }

  /**
   * The location text is deterministic and loses nothing: both coordinates
   * can be read back from it, as long as the latitude has no comma (the
   * text of a Python float never does).
   */
  lemma {:induction false} LocationTextRoundTrip(latitude: string, longitude: string)
    requires forall k :: 0 <= k < |latitude| ==> latitude[k] != ','
    ensures CoordinatesOf(LocationText(latitude, longitude)) == Some((latitude, longitude))
  {
    var text := LocationText(latitude, longitude);
    var rest := latitude + LongitudeInfix + longitude;
    assert text[..|LocationPrefix|] == LocationPrefix;
    assert text[|LocationPrefix|..] == rest;
    FirstIndexOfAfter(latitude, LongitudeInfix + longitude, ',');
    assert rest == latitude + (LongitudeInfix + longitude);
    assert rest[|latitude|..|latitude| + |LongitudeInfix|] == LongitudeInfix;
    assert rest[..|latitude|] == latitude;
    assert rest[|latitude| + |LongitudeInfix|..] == longitude;
  }

  /** What a turn does, in order; `Delivered` records a call of the delivery function. */
  datatype Effect =
    | SessionCreated(session: ChatSession)
    | MessageStored(message: ChatMessage)
    | AgentCalled(input: string, threadId: string)
    | Delivered(userId: string, text: string)

  /**
   * What a turn calls outside this module: the agent, answering an input
   * and a thread id with its reply or the exception it raises; the delivery
   * function, whose return value the turn ignores but whose exception ends
   * it; and `str()` of a decoded value. A reply the message schema would
   * refuse (one that is not a string) counts as an agent exception, since
   * both end the turn at the same point.
   */
  datatype Calls = Calls(
    agent: (string, string) -> Result<string, PyError>,
    deliver: (string, string) -> Result<Json, PyError>,
    show: Json -> string)

  /** How far the store clock moves before each of the turn's (up to three) writes. */
  datatype Elapsed = Elapsed(beforeSession: nat, beforeUserMessage: nat, beforeBotMessage: nat)

  /** How a turn (or a part of it) ends, the store after it, and its effects. */
  datatype TurnResult = TurnResult(outcome: Result<(), PyError>, after: StoreState, effects: seq<Effect>)

  /** The session step of a turn: the session used, the store after it, and its effects. */
  datatype Resolution = Resolution(session: Result<ChatSession, PyError>, after: StoreState, effects: seq<Effect>)

  /**
   * Find-or-create: reuse the first session of the pair, or create one under
   * `newSessionId`; creation fails, writing nothing, when that id is taken.
   */
  function Resolve(before: StoreState, userId: string, channel: string, newSessionId: string, elapsed: nat): Resolution {
    var found := FindByUserAndChannel(before.sessions, userId, channel);
    if found.Some? then
      Resolution(Ok(found.value), before, [])
    else if HasSession(before.sessions, newSessionId) then
      Resolution(Err(IntegrityError(SessionPrimaryKey)), before, [])
    else
      var session := ChatSession(newSessionId, userId, channel, before.clock + elapsed);
      Resolution(Ok(session), StoreState(before.sessions + [session], before.messages, session.createdAt), [SessionCreated(session)])
  }

  /**
   * The exchange step of a turn: store the user's text, ask the agent, and
   * if it answers, store and deliver the reply. An agent exception leaves
   * the user's message stored and nothing else; a delivery exception comes
   * after both messages are stored.
   */
  function Exchange(
    before: StoreState, session: ChatSession, userId: string, text: string,
    calls: Calls, elapsed: Elapsed): TurnResult
  {
    var clock1 := before.clock + elapsed.beforeUserMessage;
    var incoming := ChatMessage(|before.messages| + 1, session.sessionId, userId, text, UserMessageType, clock1);
    var asked := [MessageStored(incoming), AgentCalled(text, session.sessionId)];
    match calls.agent(text, session.sessionId)
    case Err(e) =>
      TurnResult(Err(e), StoreState(before.sessions, before.messages + [incoming], clock1), asked)
    case Ok(reply) =>
      var clock2 := clock1 + elapsed.beforeBotMessage;
      var outgoing := ChatMessage(|before.messages| + 2, session.sessionId, BotSender, reply, BotMessageType, clock2);
      var after := StoreState(before.sessions, before.messages + [incoming, outgoing], clock2);
      var effects := asked + [MessageStored(outgoing), Delivered(userId, reply)];
      match calls.deliver(userId, reply)
      case Err(e) => TurnResult(Err(e), after, effects)
      case Ok(_) => TurnResult(Ok(()), after, effects)
  }

  /**
   * The specification of one turn, as a function of the store before it.
   * `newSessionId` is the id `uuid4` would produce if a session is created.
   */
  function Turn(
    before: StoreState, userId: string, message: map<string, Json>, channel: string,
    calls: Calls, newSessionId: string, elapsed: Elapsed): TurnResult
  {
    var resolution := Resolve(before, userId, channel, newSessionId, elapsed.beforeSession);
    match resolution.session
    case Err(e) => TurnResult(Err(e), resolution.after, resolution.effects)
    case Ok(session) =>
      match NormaliseInbound(message, calls.show)
      case Err(e) => TurnResult(Err(e), resolution.after, resolution.effects)
      case Ok(text) =>
        var exchanged := Exchange(resolution.after, session, userId, text, calls, elapsed);
        TurnResult(exchanged.outcome, exchanged.after, resolution.effects + exchanged.effects)
  }

  /** The session and the text the agent is asked with, when a turn gets that far. */
  function AgentInput(
    before: StoreState, userId: string, message: map<string, Json>, channel: string,
    calls: Calls, newSessionId: string, elapsed: Elapsed): Option<(ChatSession, string)>
  {
    var resolution := Resolve(before, userId, channel, newSessionId, elapsed.beforeSession);
    if resolution.session.Err? || NormaliseInbound(message, calls.show).Err? then None
    else Some((resolution.session.value, NormaliseInbound(message, calls.show).value))
  }

  /** The find-or-create steps of `process_message_from_channel`. */
  method ResolveSession(store: ChatStore, userId: string, channel: string, newSessionId: string, elapsed: nat)
    returns (session: Result<ChatSession, PyError>, effects: seq<Effect>)
    requires store.Valid()
    modifies store
    ensures store.Valid()
    ensures var r := Resolve(old(store.Snapshot()), userId, channel, newSessionId, elapsed);
            session == r.session && store.Snapshot() == r.after && effects == r.effects
    ensures session.Ok? ==> session.value in store.sessions
  {
    var found := store.GetSessionByUserAndChannel(userId, channel);
    if found.Some? {
      return Ok(found.value), [];
    }
    session := store.CreateSession(userId, channel, newSessionId, elapsed);
    effects := if session.Ok? then [SessionCreated(session.value)] else [];
  }

  /** The two writes, the agent call and the delivery of `process_message_from_channel`. */
  method StoreExchange(
    store: ChatStore, session: ChatSession, userId: string, text: string, calls: Calls, elapsed: Elapsed)
    returns (outcome: Result<(), PyError>, effects: seq<Effect>)
    requires store.Valid()
    requires session in store.sessions
    modifies store
    ensures store.Valid()
    ensures var x := Exchange(old(store.Snapshot()), session, userId, text, calls, elapsed);
            outcome == x.outcome && store.Snapshot() == x.after && effects == x.effects
  {
    var incoming := store.CreateMessage(userId, text, UserMessageType, session.sessionId, elapsed.beforeUserMessage);
    assert incoming.Ok?;
    effects := [MessageStored(incoming.value)];

    var reply := calls.agent(text, session.sessionId);
    effects := effects + [AgentCalled(text, session.sessionId)];
    if reply.Err? {
      return reply.PropagateFailure(), effects;
    }

    var outgoing := store.CreateMessage(BotSender, reply.value, BotMessageType, session.sessionId, elapsed.beforeBotMessage);
    assert outgoing.Ok?;
    effects := effects + [MessageStored(outgoing.value)];

    var delivered := calls.deliver(userId, reply.value);
    effects := effects + [Delivered(userId, reply.value)];
    if delivered.Err? {
      return delivered.PropagateFailure(), effects;
    }
    outcome := Ok(());
  }

  /**
   * `process_message_from_channel`. It changes the store exactly as `Turn`
   * says, returns the exception that ends the turn early, if any, and
   * reports the turn's effects in order.
   */
  method ProcessMessageFromChannel(
    store: ChatStore, userId: string, message: map<string, Json>, channel: string,
    calls: Calls, newSessionId: string, elapsed: Elapsed)
    returns (outcome: Result<(), PyError>, effects: seq<Effect>)
    requires store.Valid()
    modifies store
    ensures store.Valid()
    ensures var t := Turn(old(store.Snapshot()), userId, message, channel, calls, newSessionId, elapsed);
            && outcome == t.outcome && effects == t.effects && store.Snapshot() == t.after
  {
    var session;
    session, effects := ResolveSession(store, userId, channel, newSessionId, elapsed.beforeSession);
    if session.Err? {
      return session.PropagateFailure(), effects;
    }

    var normalised := NormaliseInbound(message, calls.show);
    if normalised.Err? {
      return normalised.PropagateFailure(), effects;
    }

    var exchanged;
    outcome, exchanged := StoreExchange(store, session.value, userId, normalised.value, calls, elapsed);
    effects := effects + exchanged;
  }

  /**
   * The session of a turn: an existing session of the pair is reused with no
   * session added; otherwise exactly one session is added, for the pair and
   * under the fresh id, or the turn fails on a taken id having written nothing.
   */
  lemma TurnFindsOrCreatesSession(
    before: StoreState, userId: string, message: map<string, Json>, channel: string,
    calls: Calls, newSessionId: string, elapsed: Elapsed)
    ensures var t := Turn(before, userId, message, channel, calls, newSessionId, elapsed);
            var found := FindByUserAndChannel(before.sessions, userId, channel);
            && (found.Some? ==> t.after.sessions == before.sessions && SessionCreated(found.value) !in t.effects)
            && (found.None? && HasSession(before.sessions, newSessionId) ==>
                  t.outcome == Err(IntegrityError(SessionPrimaryKey)) && t.after == before && t.effects == [])
            && (found.None? && !HasSession(before.sessions, newSessionId) ==>
                  exists s :: && t.after.sessions == before.sessions + [s]
                              && IsFor(s, userId, channel) && s.sessionId == newSessionId
                              && t.effects[0] == SessionCreated(s))
  {
    var t := Turn(before, userId, message, channel, calls, newSessionId, elapsed);
    var found := FindByUserAndChannel(before.sessions, userId, channel);
    if found.None? && !HasSession(before.sessions, newSessionId) {
      var s := ChatSession(newSessionId, userId, channel, before.clock + elapsed.beforeSession);
      assert t.after.sessions == before.sessions + [s];
    }
  }

  /**
   * Once a turn reaches the agent, the user's normalised text is stored
   * first, under the resolved session of the pair; the agent's reply, if
   * it answers, is stored right after it as the bot's message. An agent
   * exception leaves the user's message as the only one added.
   */
  lemma TurnAppendsUserThenBotMessage(
    before: StoreState, userId: string, message: map<string, Json>, channel: string,
    calls: Calls, newSessionId: string, elapsed: Elapsed)
    requires AgentInput(before, userId, message, channel, calls, newSessionId, elapsed).Some?
    ensures var t := Turn(before, userId, message, channel, calls, newSessionId, elapsed);
            var session := AgentInput(before, userId, message, channel, calls, newSessionId, elapsed).value.0;
            var text := AgentInput(before, userId, message, channel, calls, newSessionId, elapsed).value.1;
            var reply := calls.agent(text, session.sessionId);
            && IsFor(session, userId, channel) && session in t.after.sessions
            && text == NormaliseInbound(message, calls.show).value
            && |t.after.messages| == |before.messages| + (if reply.Ok? then 2 else 1)
            && t.after.messages[..|before.messages|] == before.messages
            && var incoming := t.after.messages[|before.messages|];
               && incoming.sender == userId && incoming.messageType == "user" && incoming.content == text
               && incoming.sessionId == session.sessionId
               && (reply.Ok? ==>
                     var outgoing := t.after.messages[|before.messages| + 1];
                     && outgoing.sender == "bot" && outgoing.messageType == "bot" && outgoing.content == reply.value
                     && outgoing.sessionId == session.sessionId)
  {
    var t := Turn(before, userId, message, channel, calls, newSessionId, elapsed);
    assert t.after.messages[..|before.messages|] == before.messages;
  }

  function CountDeliveries(effects: seq<Effect>): nat {
    if effects == [] then 0
    else (if effects[0].Delivered? then 1 else 0) + CountDeliveries(effects[1..])
  }

  function CountAgentCalls(effects: seq<Effect>): nat {
    if effects == [] then 0
    else (if effects[0].AgentCalled? then 1 else 0) + CountAgentCalls(effects[1..])
  }

  function CountStores(effects: seq<Effect>): nat {
    if effects == [] then 0
    else (if effects[0].MessageStored? then 1 else 0) + CountStores(effects[1..])
  }

  lemma {:induction false} CountsOfConcat(a: seq<Effect>, b: seq<Effect>)
    ensures CountDeliveries(a + b) == CountDeliveries(a) + CountDeliveries(b)
    ensures CountAgentCalls(a + b) == CountAgentCalls(a) + CountAgentCalls(b)
    ensures CountStores(a + b) == CountStores(a) + CountStores(b)
    decreases |a|
  {
    if a == [] {
      assert a + b == b;
    } else {
      assert (a + b)[0] == a[0];
      assert (a + b)[1..] == a[1..] + b;
      CountsOfConcat(a[1..], b);
    }
  }

  /** The counts of a trace of one effect. */
  lemma CountsOfOne(e: Effect)
    ensures CountDeliveries([e]) == (if e.Delivered? then 1 else 0)
    ensures CountAgentCalls([e]) == (if e.AgentCalled? then 1 else 0)
    ensures CountStores([e]) == (if e.MessageStored? then 1 else 0)
  {
    assert [e][1..] == [];
  }

  /**
   * The effects of one exchange: a store and the agent call; then, if the
   * agent answered, a store and the delivery, the delivery last.
   */
  lemma ExchangeCounts(before: StoreState, session: ChatSession, userId: string, text: string,
                       calls: Calls, elapsed: Elapsed)
    ensures var x := Exchange(before, session, userId, text, calls, elapsed);
            var reply := calls.agent(text, session.sessionId);
            && CountAgentCalls(x.effects) == 1 && AgentCalled(text, session.sessionId) in x.effects
            && (reply.Err? ==> CountStores(x.effects) == 1 && CountDeliveries(x.effects) == 0)
            && (reply.Ok? ==>
                  && CountStores(x.effects) == 2 && CountDeliveries(x.effects) == 1
                  && |x.effects| == 4 && x.effects[3] == Delivered(userId, reply.value)
                  && CountStores(x.effects[..3]) == 2 && CountDeliveries(x.effects[..3]) == 0)
  {
    var x := Exchange(before, session, userId, text, calls, elapsed);
    var e := x.effects;
    CountsOfOne(e[0]);
    CountsOfOne(e[1]);
    assert e[..2] == [e[0]] + [e[1]];
    CountsOfConcat([e[0]], [e[1]]);
    if calls.agent(text, session.sessionId).Ok? {
      CountsOfOne(e[2]);
      CountsOfOne(e[3]);
      assert e[..3] == e[..2] + [e[2]];
      CountsOfConcat(e[..2], [e[2]]);
      assert e == e[..3] + [e[3]];
      CountsOfConcat(e[..3], [e[3]]);
    } else {
      assert e == e[..2];
    }
  }

  /**
   * The calls of a turn. A turn that stops before the agent (a taken
   * session id, a message that does not normalise) calls neither the agent
   * nor the delivery and stores no message. An agent exception ends the turn
   * with that exception, one message stored and nothing delivered.
   * Otherwise the reply is delivered once, to the user, as the last effect,
   * after both messages are stored, and the turn fails exactly when the
   * delivery raises.
   */
  lemma TurnDeliversOnceAfterStoring(
    before: StoreState, userId: string, message: map<string, Json>, channel: string,
    calls: Calls, newSessionId: string, elapsed: Elapsed)
    ensures var t := Turn(before, userId, message, channel, calls, newSessionId, elapsed);
            var input := AgentInput(before, userId, message, channel, calls, newSessionId, elapsed);
            && (input.None? ==>
                  && t.outcome.Err? && CountAgentCalls(t.effects) == 0 && CountDeliveries(t.effects) == 0
                  && CountStores(t.effects) == 0 && t.after.messages == before.messages)
            && (input.Some? ==>
                  var session := input.value.0;
                  var text := input.value.1;
                  var reply := calls.agent(text, session.sessionId);
                  && CountAgentCalls(t.effects) == 1 && AgentCalled(text, session.sessionId) in t.effects
                  && (reply.Err? ==>
                        && t.outcome == Err(reply.error) && CountDeliveries(t.effects) == 0
                        && CountStores(t.effects) == 1 && |t.after.messages| == |before.messages| + 1)
                  && (reply.Ok? ==>
                        && CountDeliveries(t.effects) == 1 && CountStores(t.effects) == 2
                        && t.effects[|t.effects| - 1] == Delivered(userId, reply.value)
                        && CountStores(t.effects[..|t.effects| - 1]) == 2
                        && (t.outcome.Ok? <==> calls.deliver(userId, reply.value).Ok?)
                        && (t.outcome.Err? ==> t.outcome.error == calls.deliver(userId, reply.value).error)))
  {
    if AgentInput(before, userId, message, channel, calls, newSessionId, elapsed).None? {
      StoppedTurnEffects(before, userId, message, channel, calls, newSessionId, elapsed);
    } else {
      ReachedTurnEffects(before, userId, message, channel, calls, newSessionId, elapsed);
    }
  }

  /** The session step adds at most one effect, and it is neither a store, an agent call nor a delivery. */
  lemma ResolutionCounts(resolution: Resolution, before: StoreState, userId: string, channel: string,
                         newSessionId: string, elapsed: nat)
    requires resolution == Resolve(before, userId, channel, newSessionId, elapsed)
    ensures CountAgentCalls(resolution.effects) == 0 && CountDeliveries(resolution.effects) == 0
    ensures CountStores(resolution.effects) == 0
  {
    if resolution.effects != [] {
      CountsOfOne(resolution.effects[0]);
      assert resolution.effects == [resolution.effects[0]];
    }
  }

  /** A turn that stops before the agent fails, calls nothing and stores no message. */
  lemma StoppedTurnEffects(
    before: StoreState, userId: string, message: map<string, Json>, channel: string,
    calls: Calls, newSessionId: string, elapsed: Elapsed)
    requires AgentInput(before, userId, message, channel, calls, newSessionId, elapsed).None?
    ensures var t := Turn(before, userId, message, channel, calls, newSessionId, elapsed);
            && t.outcome.Err? && CountAgentCalls(t.effects) == 0 && CountDeliveries(t.effects) == 0
            && CountStores(t.effects) == 0 && t.after.messages == before.messages
  {
    var resolution := Resolve(before, userId, channel, newSessionId, elapsed.beforeSession);
    var t := Turn(before, userId, message, channel, calls, newSessionId, elapsed);
    assert t.effects == resolution.effects;
    ResolutionCounts(resolution, before, userId, channel, newSessionId, elapsed.beforeSession);
  }

  /** The calls of a turn that reaches the agent, by the agent's answer. */
  lemma ReachedTurnEffects(
    before: StoreState, userId: string, message: map<string, Json>, channel: string,
    calls: Calls, newSessionId: string, elapsed: Elapsed)
    requires AgentInput(before, userId, message, channel, calls, newSessionId, elapsed).Some?
    ensures var t := Turn(before, userId, message, channel, calls, newSessionId, elapsed);
            var input := AgentInput(before, userId, message, channel, calls, newSessionId, elapsed);
            var session := input.value.0;
            var text := input.value.1;
            var reply := calls.agent(text, session.sessionId);
            && CountAgentCalls(t.effects) == 1 && AgentCalled(text, session.sessionId) in t.effects
            && (reply.Err? ==>
                  && t.outcome == Err(reply.error) && CountDeliveries(t.effects) == 0
                  && CountStores(t.effects) == 1 && |t.after.messages| == |before.messages| + 1)
            && (reply.Ok? ==>
                  && CountDeliveries(t.effects) == 1 && CountStores(t.effects) == 2
                  && t.effects[|t.effects| - 1] == Delivered(userId, reply.value)
                  && CountStores(t.effects[..|t.effects| - 1]) == 2
                  && (t.outcome.Ok? <==> calls.deliver(userId, reply.value).Ok?)
                  && (t.outcome.Err? ==> t.outcome.error == calls.deliver(userId, reply.value).error))
  {
    var t := Turn(before, userId, message, channel, calls, newSessionId, elapsed);
    var resolution := Resolve(before, userId, channel, newSessionId, elapsed.beforeSession);
    var input := AgentInput(before, userId, message, channel, calls, newSessionId, elapsed);
    var session, text := input.value.0, input.value.1;
    var x := Exchange(resolution.after, session, userId, text, calls, elapsed);
    assert t == TurnResult(x.outcome, x.after, resolution.effects + x.effects);
    ExchangeCounts(resolution.after, session, userId, text, calls, elapsed);
    ResolutionCounts(resolution, before, userId, channel, newSessionId, elapsed.beforeSession);
    CountsOfConcat(resolution.effects, x.effects);
    if calls.agent(text, session.sessionId).Ok? {
      assert t.effects[..|t.effects| - 1] == resolution.effects + x.effects[..3];
      CountsOfConcat(resolution.effects, x.effects[..3]);
    }
  }

  /** A turn leaves the messages of every other session exactly as they were. */
  lemma TurnLeavesOtherSessionsAlone(
    before: StoreState, userId: string, message: map<string, Json>, channel: string,
    calls: Calls, newSessionId: string, elapsed: Elapsed, other: string)
    ensures var t := Turn(before, userId, message, channel, calls, newSessionId, elapsed);
            var resolution := Resolve(before, userId, channel, newSessionId, elapsed.beforeSession);
            resolution.session.Err? || other != resolution.session.value.sessionId ==>
              MessagesOf(t.after.messages, other) == MessagesOf(before.messages, other)
  {
    var resolution := Resolve(before, userId, channel, newSessionId, elapsed.beforeSession);
    var input := AgentInput(before, userId, message, channel, calls, newSessionId, elapsed);
    if input.Some? {
      var session, text := input.value.0, input.value.1;
      var x := Exchange(resolution.after, session, userId, text, calls, elapsed);
      assert Turn(before, userId, message, channel, calls, newSessionId, elapsed).after == x.after;
      var n := |before.messages|;
      var incoming := x.after.messages[n];
      assert incoming.sessionId == session.sessionId;
      if calls.agent(text, session.sessionId).Ok? {
        var outgoing := x.after.messages[n + 1];
        assert x.after.messages == before.messages + [incoming] + [outgoing];
        MessagesOfAppend(before.messages, incoming, other);
        MessagesOfAppend(before.messages + [incoming], outgoing, other);
      } else {
        assert x.after.messages == before.messages + [incoming];
        MessagesOfAppend(before.messages, incoming, other);
      }
    }
  }

  /** At most one stored session for each (user, channel) pair. */
  predicate OneSessionPerPair(sessions: seq<ChatSession>) {
    forall i, j :: 0 <= i < j < |sessions| ==>
      !(sessions[i].userId == sessions[j].userId && sessions[i].channel == sessions[j].channel)
  }

  /**
   * Under sequential turns find-or-create never duplicates a session: if
   * every pair had at most one session before a turn, it still does after.
   */
  lemma TurnKeepsOneSessionPerPair(
    before: StoreState, userId: string, message: map<string, Json>, channel: string,
    calls: Calls, newSessionId: string, elapsed: Elapsed)
    requires OneSessionPerPair(before.sessions)
    ensures OneSessionPerPair(Turn(before, userId, message, channel, calls, newSessionId, elapsed).after.sessions)
  {
    var after := Turn(before, userId, message, channel, calls, newSessionId, elapsed).after.sessions;
    if after != before.sessions {
      var n := |before.sessions|;
      assert FindByUserAndChannel(before.sessions, userId, channel).None?;
      forall i, j | 0 <= i < j < |after|
        ensures !(after[i].userId == after[j].userId && after[i].channel == after[j].channel)
      {
        if j == n {
          assert after[i] in before.sessions;
        }
      }
    }
  }

  /**
   * The session step is a turn's only change to the sessions, and the
   * session it resolves is one of the pair's.
   */
  lemma ResolvedSessionKept(
    before: StoreState, userId: string, message: map<string, Json>, channel: string,
    calls: Calls, newSessionId: string, elapsed: Elapsed)
    requires Resolve(before, userId, channel, newSessionId, elapsed.beforeSession).session.Ok?
    ensures var r := Resolve(before, userId, channel, newSessionId, elapsed.beforeSession);
            var t := Turn(before, userId, message, channel, calls, newSessionId, elapsed);
            && t.after.sessions == r.after.sessions
            && r.session.value in t.after.sessions && IsFor(r.session.value, userId, channel)
  {
    var resolution := Resolve(before, userId, channel, newSessionId, elapsed.beforeSession);
    var t := Turn(before, userId, message, channel, calls, newSessionId, elapsed);
    assert resolution.session.value in resolution.after.sessions;
    if NormaliseInbound(message, calls.show).Ok? {
      var x := Exchange(resolution.after, resolution.session.value, userId, NormaliseInbound(message, calls.show).value, calls, elapsed);
      assert t.after == x.after;
      assert x.after.sessions == resolution.after.sessions;
    }
  }

  /**
   * A second turn of the same user on the same channel resolves the very
   * session the first one resolved, and adds no session.
   */
  lemma SecondTurnReusesSession(
    before: StoreState, userId: string, first: map<string, Json>, second: map<string, Json>, channel: string,
    calls: Calls, firstId: string, secondId: string, e1: Elapsed, e2: Elapsed)
    requires Resolve(before, userId, channel, firstId, e1.beforeSession).session.Ok?
    ensures var t1 := Turn(before, userId, first, channel, calls, firstId, e1);
            var t2 := Turn(t1.after, userId, second, channel, calls, secondId, e2);
            && Resolve(t1.after, userId, channel, secondId, e2.beforeSession).session
               == Resolve(before, userId, channel, firstId, e1.beforeSession).session
            && t2.after.sessions == t1.after.sessions
            && Resolve(t1.after, userId, channel, secondId, e2.beforeSession).effects == []
  {
    var r1 := Resolve(before, userId, channel, firstId, e1.beforeSession);
    var t1 := Turn(before, userId, first, channel, calls, firstId, e1);
    ResolvedSessionKept(before, userId, first, channel, calls, firstId, e1);
    if FindByUserAndChannel(before.sessions, userId, channel).None? {
      assert r1.after.sessions == before.sessions + [r1.session.value];
      FirstCreatedIsFound(before.sessions, r1.session.value);
    }
    assert FindByUserAndChannel(t1.after.sessions, userId, channel) == Some(r1.session.value);
    TurnFindsOrCreatesSession(t1.after, userId, second, channel, calls, secondId, e2);
  }

  /**
   * With WhatsApp delivery, a send the platform refuses still completes the
   * turn: `send_message_to_whatsapp` returns its error dict for any status
   * but 200 rather than raising, and the turn ignores what it returns. The
   * turn fails only when the HTTP client raises, or when a refusal's body
   * cannot be decoded.
   */
  lemma RefusedWhatsAppSendCompletesTurn(
    before: StoreState, userId: string, message: map<string, Json>, channel: string,
    calls: Calls, newSessionId: string, elapsed: Elapsed, reply: string,
    settings: WhatsAppService.Settings,
    post: WhatsAppService.HttpRequest -> Result<WhatsAppService.HttpResponse, PyError>)
    requires AgentInput(before, userId, message, channel, calls, newSessionId, elapsed).Some?
    requires var input := AgentInput(before, userId, message, channel, calls, newSessionId, elapsed).value;
             calls.agent(input.1, input.0.sessionId) == Ok(reply)
    requires calls.deliver(userId, reply) == WhatsAppService.SendToWhatsApp(settings, userId, reply, post)
    ensures var response := post(WhatsAppService.OutboundRequest(settings, userId, reply));
            Turn(before, userId, message, channel, calls, newSessionId, elapsed).outcome.Ok?
            <==> response.Ok? && (response.value.statusCode == 200 || response.value.body.Ok?)
  {
    TurnDeliversOnceAfterStoring(before, userId, message, channel, calls, newSessionId, elapsed);
    var response := post(WhatsAppService.OutboundRequest(settings, userId, reply));
    if response.Ok? {
      assert calls.deliver(userId, reply) == WhatsAppService.DeliveryOutcome(response.value);
    }
  }

  /**
   * A first "hola" from a new WhatsApp user on an empty store, answered by
   * the agent: one session, the user's and the bot's messages stored, one
   * delivery attempted.
   */
  lemma FirstHolaScenario(calls: Calls, newSessionId: string, elapsed: Elapsed)
    requires calls.agent("hola", newSessionId).Ok?
    ensures var t := Turn(StoreState([], [], 0), "+57999", map["text" := JDict(map["body" := JStr("hola")])],
                          "whatsapp", calls, newSessionId, elapsed);
            && |t.after.sessions| == 1 && |t.after.messages| == 2
            && t.after.messages[0].content == "hola" && t.after.messages[1].content == calls.agent("hola", newSessionId).value
            && CountDeliveries(t.effects) == 1
  {
    var message := map["text" := JDict(map["body" := JStr("hola")])];
    TextWithoutLocation(message, calls.show);
    TurnDeliversOnceAfterStoring(StoreState([], [], 0), "+57999", message, "whatsapp", calls, newSessionId, elapsed);
  }

  /**
   * `send_message_to_web`: its body does nothing, so the web channel's
   * delivery returns `None` and never raises.
   */
  function SendMessageToWeb(userId: string, messageText: string): (r: Result<Json, PyError>)
    ensures r.Ok? && r.value.JNull?
  {
    Ok(JNull)
  }

  /**
   * With web delivery, a turn whose agent answers always completes: both
   * messages are stored and the delivery, which does nothing, cannot fail
   * it.
   */
  lemma WebDeliveryCompletesTurn(
    before: StoreState, userId: string, message: map<string, Json>, channel: string,
    calls: Calls, newSessionId: string, elapsed: Elapsed, reply: string)
    requires AgentInput(before, userId, message, channel, calls, newSessionId, elapsed).Some?
    requires var input := AgentInput(before, userId, message, channel, calls, newSessionId, elapsed).value;
             calls.agent(input.1, input.0.sessionId) == Ok(reply)
    requires calls.deliver(userId, reply) == SendMessageToWeb(userId, reply)
    ensures var t := Turn(before, userId, message, channel, calls, newSessionId, elapsed);
            t.outcome == Ok(()) && |t.after.messages| == |before.messages| + 2
  {
    TurnDeliversOnceAfterStoring(before, userId, message, channel, calls, newSessionId, elapsed);
    TurnAppendsUserThenBotMessage(before, userId, message, channel, calls, newSessionId, elapsed);
  }
}

# chatbot_nasa: a verified model of the chat core

This project models the sequential core of an agricultural chatbot in Dafny, and proves properties of that model. The chatbot answers farmers on WhatsApp and on the web as "Doña Gloria". The core covers:

- **The chat store.** Sessions per (user, channel), messages per session, and the bounded history query.
- **One turn of the message pipeline.** It finds or creates the session, normalises the inbound text or location, stores the user message, calls the agent, stores the reply, and delivers it exactly once.
- **The WhatsApp channel edges.** Payload extraction and task queuing, the webhook verification handshake, the outbound Graph API request, and the mapping of the delivery status.
- **The agent's control logic, with the language model abstracted.** The validity test, the unbounded retry loop with its corrective message, prompt defaults, tool routing, and the reply selection. For the second graph it also covers keyword routing, answer validation and the fixed questions.
- **The agriculture-prediction tool.** The case-insensitive period table, the invalid-period text, the fixed request, and the layout of both report shapes.

Files, one module each:

| file | module | models |
|---|---|---|
| `wrappers.dfy` | `Wrappers` | `Option`, `Result` |
| `pystrings.dfy` | `PyStrings` | the Python string operations the core uses: `lower` (Latin-1), `capitalize`, `in`, `split()`, `int()` |
| `pyvalues.dfy` | `PyValues` | JSON-like values, Python exceptions, `[]` on dicts and lists, `str(e)` |
| `chat_models.dfy` | `ChatModels` | the two tables and the store invariant |
| `chat_dao.dfy` | `ChatDao` | `ChatDAO` as the class `ChatStore` |
| `message_processor.dfy` | `MessageProcessor` | `process_message_from_channel`, `send_message_to_web` |
| `whatsapp_service.dfy` | `WhatsAppService` | `handle_incoming_message`, `send_message_to_whatsapp` |
| `whatsapp_api.dfy` | `WhatsAppApi` | the GET and POST webhook endpoints |
| `agent.dfy` | `Agent` | `app/agent/agent.py` |
| `agent_v2.dfy` | `AgentV2` | `app/agent/test_Agent/agentv2.py` |
| `agriculture_predictions.dfy` | `AgriculturePredictions` | the `get_agriculture_predictions` tool |

Outside influences become parameters:

- **Language model.** A function from attempt number and prompt to a message. The attempt number lets two calls with the same prompt answer differently.
- **Graph run.** A function from the start messages and config to the final messages.
- **HTTP.** The Graph API POST and the predictions GET are functions from a request to a response or an exception.
- **Float handling.** Float parsing is a predicate on tokens, and `:.2f` formatting is a function on numbers.
- **Clock.** The store clock advances by a caller-given amount before each write, and the agent's clock is a function of the attempt.
- **Session ids.** The id `uuid4` would produce is passed in.
- **`str()` of decoded values.** The text Python gives a latitude or longitude is a function parameter of the turn.
- **The agent and the delivery function, seen from a turn.** Each is a function returning its answer or the exception it raises.

Two operations change state in place:

- **The chat store.** `ChatStore` holds both tables as sequences. `CreateSession` and `CreateMessage` append to them.
- **The background queue.** `BackgroundTasks` holds the queued calls as a sequence. `HandleIncomingMessage` appends to it.

Each such method is tied to a specification function of the state before it (`Turn`, `Handling`, `History`), and the lemmas are proved about those functions. `send_message_to_web` has an empty body, so it is a function that returns `None` and never raises.

## Model

| member | source | states |
|---|---|---|
| ChatModels.MessageIdsUnique | app/models/chat.py:19 | under the store invariant no two messages share an id |
| ChatModels.MessagesOf | app/models/chat.py:14 | a session's messages are exactly the stored messages carrying its id, in timestamp order, none newer than the last stored |
| ChatModels.MessagesOfAppend | app/models/chat.py:20 | appending a message extends its own session's message list by it and no other session's |
| ChatDao.FindByUserAndChannel | app/dao/chat.py:11-15 | returns a stored session with both the user and the channel, and none exactly when no stored session has both |
| ChatDao.FindById | app/dao/chat.py:29-30 | returns a stored session with that id, and none exactly when the id is not stored |
| ChatDao.FindByIdUnique | app/dao/chat.py:29-30 | under the primary key, lookup by id returns the one session with that id |
| ChatDao.FoundAfterCreate | app/dao/chat.py:22-25 | after a session is added, lookup by its user and channel finds a session |
| ChatDao.FirstCreatedIsFound | app/dao/chat.py:11-26 | the first session created for a pair is the one the pair lookup finds afterwards |
| ChatDao.History | app/dao/chat.py:50-51 | exactly min(limit, session size) messages, all stored and of the session; entry i is the session's i-th newest row, so the result is the session's last rows, each once |
| ChatDao.HistoryNewestFirst | app/dao/chat.py:51 | the history is ordered by creation time, newest first |
| ChatDao.HistoryOmitsOnlyOlder | app/dao/chat.py:51 | no message of the session left out of the history is newer than one in it |
| ChatDao.LastRowsNewest | app/dao/chat.py:51 | of a timestamp-ordered sequence, its last rows taken newest first are no older than any row left out |
| ChatDao.HistoryShowsLatestWrite | app/dao/chat.py:33-51 | a message stamped later than every other of its session heads its history for any positive limit, and every later entry is strictly older |
| ChatDao.ChatStore.GetSessionByUserAndChannel | app/dao/chat.py:11-15 | answers the pair query on the current sessions and changes nothing |
| ChatDao.ChatStore.CreateSession | app/dao/chat.py:18-26 | appends exactly one session for the pair under the new id, keeps the invariant and the messages; a taken id writes nothing and reports the primary key |
| ChatDao.ChatStore.GetSessionById | app/dao/chat.py:29-30 | answers the by-id query on the current sessions |
| ChatDao.ChatStore.CreateMessage | app/dao/chat.py:33-47 | appends exactly one message with the given fields, next id and current time, returns the stored row, keeps the invariant and the sessions; an unknown session writes nothing |
| ChatDao.ChatStore.GetChatHistory | app/dao/chat.py:50-51 | answers the history query, limit 10 by default |
| ChatDao.TwoSessionsForOnePair | app/dao/chat.py:18-26 | on any valid store, two creations for one pair under two fresh ids append two sessions, both for the pair, under those ids, keeping the invariant |
| MessageProcessor.NormaliseInbound | app/services/message_processor.py:19-31 | with a location only a KeyError or TypeError can end the step; without one only an AttributeError from `.get` or the schema's refusal of a non-string content |
| MessageProcessor.LocationTakesPrecedence | app/services/message_processor.py:19-22 | with a location present the text is ignored |
| MessageProcessor.LocationCases | app/services/message_processor.py:19-22 | a location that is not a dict raises TypeError; a missing latitude is KeyError("latitude") before a missing longitude is KeyError("longitude"); both present give the location text of their `str()` |
| MessageProcessor.TextWithoutLocation | app/services/message_processor.py:23-31 | without a location: no "text" or no "body" gives ""; a string body is the text; a "text" that is not a dict raises AttributeError on `get`; a non-string body fails validation of `content` |
| MessageProcessor.QueuedMessageIsDict | app/services/whatsapp.py:23-28 | every message queued for a turn by the WhatsApp channel is a dict, on channel "whatsapp" |
| MessageProcessor.LocationTextRoundTrip | app/services/message_processor.py:22 | both coordinates can be read back from the location text |
| MessageProcessor.ResolveSession | app/services/message_processor.py:14-16 | changes the store exactly as the find-or-create step of `Turn` says, keeping the invariant |
| MessageProcessor.StoreExchange | app/services/message_processor.py:27-46 | changes the store, returns the outcome and performs the effects exactly as `Exchange` says, including the agent and delivery exceptions |
| MessageProcessor.ProcessMessageFromChannel | app/services/message_processor.py:9-46 | on a message dict of any shape, changes the store, returns the outcome (or the exception of the session step, the normalisation, the agent or the delivery) and performs the effects exactly as `Turn` says, keeping the invariant |
| MessageProcessor.TurnFindsOrCreatesSession | app/services/message_processor.py:14-16 | an existing session of the pair is reused with no session added; otherwise exactly one session for the pair is added, or a taken id fails with nothing written |
| MessageProcessor.TurnAppendsUserThenBotMessage | app/services/message_processor.py:27-43 | once the agent is reached, the user message (sender, "user", normalised text) is appended in the resolved session, followed by the bot message ("bot", "bot", the reply) exactly when the agent answers; after an agent exception only the user message is added |
| MessageProcessor.ExchangeCounts | app/services/message_processor.py:32-46 | one exchange calls the agent once; an agent exception leaves one store and no delivery; an answer gives two stores then one delivery, last |
| MessageProcessor.TurnDeliversOnceAfterStoring | app/services/message_processor.py:14-46 | a turn stopped before the agent calls nothing and stores no message; an agent exception is the outcome, with one message stored and no delivery; an answer is delivered once, to the user, last and after both stores, and the turn fails exactly with the delivery's exception |
| MessageProcessor.TurnLeavesOtherSessionsAlone | app/services/message_processor.py:32-43 | every other session's messages are unchanged |
| MessageProcessor.TurnKeepsOneSessionPerPair | app/services/message_processor.py:14-16 | sequential turns never create a second session for a pair |
| MessageProcessor.ResolvedSessionKept | app/services/message_processor.py:14-46 | the session step is the turn's only change to the sessions, and the resolved session is one of the pair's and stays stored however the turn ends |
| MessageProcessor.SecondTurnReusesSession | app/services/message_processor.py:14-16 | a second turn of the same user and channel resolves the very session the first resolved, with no session added and no session effect |
| MessageProcessor.RefusedWhatsAppSendCompletesTurn | app/services/message_processor.py:46 | with WhatsApp delivery an answered turn completes exactly when the POST returns a response with status 200 or a decodable body, so a refused send does not fail the turn |
| MessageProcessor.FirstHolaScenario | app/services/message_processor.py:9-46 | a first "hola" on an empty store, answered by the agent, leaves one session, the two messages and one delivery |
| MessageProcessor.SendMessageToWeb | app/services/message_processor.py:49-54 | reads nothing, changes nothing, returns `None` and never raises |
| MessageProcessor.WebDeliveryCompletesTurn | app/services/message_processor.py:35-54 | with web delivery a turn whose agent answers completes, with both messages stored |
| WhatsAppService.FirstMessage | app/services/whatsapp.py:23 | the nested read fails only with KeyError, IndexError or TypeError |
| WhatsAppService.ExtractSenderAndMessage | app/services/whatsapp.py:21-23 | succeeds exactly when the first message and its "from" exist; returns that sender and that message |
| WhatsAppService.ExtractFromWebhookPayload | app/services/whatsapp.py:22-23 | extraction returns the sender and message packed into a webhook payload |
| WhatsAppService.MissingEntryIsKeyError | app/services/whatsapp.py:22-25 | a payload without "entry" fails with KeyError('entry') |
| WhatsAppService.EmptyMessagesIsIndexError | app/services/whatsapp.py:21-25 | an empty messages list fails with IndexError, not KeyError |
| WhatsAppService.EmptyEntryIsIndexError | app/services/whatsapp.py:21-25 | an empty entry list fails with IndexError |
| WhatsAppService.BackgroundTasks.AddTask | app/services/whatsapp.py:28 | appends its argument to the queue, leaving earlier entries in place |
| WhatsAppService.HandlingOutcomes | app/services/whatsapp.py:21-31 | "received" with exactly one WhatsApp task for the sender and message when extraction succeeds; the error dict and no task on KeyError; other exceptions propagate with no task |
| WhatsAppService.HandleIncomingMessage | app/services/whatsapp.py:15-31 | returns the handling result and appends at most the one task it decides |
| WhatsAppService.MessagesUrlRoundTrip | app/services/whatsapp.py:58 | the phone id can be read back from the messages URL |
| WhatsAppService.OutboundRequest | app/services/whatsapp.py:58-70 | URL of the configured phone id; exactly the headers "Bearer " + token and Content-Type "application/json"; a body of exactly "messaging_product" "whatsapp", "to", "type" "text" and a "text" dict holding only "body", from which recipient and text read back |
| WhatsAppService.DeliveryOutcome | app/services/whatsapp.py:78-81 | success exactly on status 200; any other status gives the error dict with the decoded body, or the decoding error |
| WhatsAppService.SendToWhatsApp | app/services/whatsapp.py:53-81 | one POST of the outbound request; a response is mapped by `DeliveryOutcome` (success exactly on 200), a client exception propagates |
| WhatsAppApi.PythonInt | app/api/whatsapp.py:21 | `int()` succeeds exactly on a literal of at most 4300 digits, with optional sign and single underscores, surrounded only by the whitespace the integer parser skips (not U+001C to U+001F), with its value; a longer one raises the digit-limit ValueError, and every failure is a ValueError |
| WhatsAppApi.VerifyWebhook | app/api/whatsapp.py:20-23 | a wrong token is 403 "Verification token mismatch"; the right token answers the challenge's value exactly when `int()` accepts it, and a ValueError otherwise |
| WhatsAppApi.ChallengeWhitespace | app/api/whatsapp.py:21 | with the right token " 5\n" is answered 5, while "\x1c5" ends in a ValueError |
| WhatsAppApi.VerifyIgnoresMode | app/api/whatsapp.py:12-23 | the mode never changes the answer |
| WhatsAppApi.VerifyEchoesChallenge | app/api/whatsapp.py:20-21 | the right token echoes any integer challenge of at most 4300 digits |
| WhatsAppApi.LongChallengeRefused | app/api/whatsapp.py:20-21 | an integer challenge of more than 4300 digits ends in the digit-limit ValueError, even with the right token |
| WhatsAppApi.WrongTokenNeverParses | app/api/whatsapp.py:20-23 | a wrong token gets 403 even with a non-numeric challenge |
| WhatsAppApi.WebhookOutcomes | app/api/whatsapp.py:30-35 | the service result is returned unchanged; every exception becomes 500 with its text |
| WhatsAppApi.MissingKeyVersusEmptyList | app/api/whatsapp.py:30-35 | a missing key is answered normally with the error dict; an empty entry list is a 500 |
| WhatsAppApi.WhatsappWebhook | app/api/whatsapp.py:25-35 | returns the mapped outcome and queues exactly what the service queues |
| Agent.Rejects | app/agent/agent.py:91-95 | not rejected exactly for a valid output; raises exactly when the first list element is a bare string |
| Agent.WithCorrections | app/agent/agent.py:96-98 | the history is kept as a prefix, followed by one correction per rejected attempt |
| Agent.RetryUntilValid | app/agent/agent.py:83-101 | every earlier attempt was rejected; the result is the first attempt not rejected, valid when returned, or its exception |
| Agent.CorrectionsOnlyAppend | app/agent/agent.py:97-98 | each retry only appends after the history of the previous one |
| Agent.PromptFor | app/agent/agent.py:84-88 | each configured key is used when present, else its default |
| Agent.CallAssistant | app/agent/agent.py:82-101 | the retry loop where each attempt prompts with the config defaults and that attempt's clock |
| Agent.AgentNodeUsesDefaults | app/agent/agent.py:122-126 | the agent node always prompts with the defaults, even though the configured values would differ |
| Agent.CallModel | app/agent/agent.py:122-126 | a returned output is valid and comes from a prompt with the default user info and interest |
| Agent.ShouldContinue | app/agent/agent.py:114-119 | "tools" exactly when the last message is an AI message with tool calls, END exactly when it is one without; IndexError on no messages; AttributeError naming the class when the last message is not an AI message |
| Agent.GraphEdges | app/agent/agent.py:132-145 | the run starts at the agent, tools lead back to it, it ends exactly after an AI message without tool calls, and raises only at the agent on no messages or a last message that is not an AI message |
| Agent.ProcessMessage | app/agent/agent.py:154-159 | the reply is the content of the last message of the final state |
| AgentV2.DelegateTask | app/agent/test_Agent/agentv2.py:187-193 | "clima" routes to the tools whatever else is there; otherwise "predicciones" or "agrícola" asks for the location; errors on no message or a list content |
| AgentV2.DelegateIgnoresCase | app/agent/test_Agent/agentv2.py:188 | a message and its lowercase form route the same way |
| AgentV2.ClimaTakesPrecedence | app/agent/test_Agent/agentv2.py:189-190 | a message starting "Clima " routes to the tools whatever follows |
| AgentV2.AgricolaInCapitals | app/agent/test_Agent/agentv2.py:188-192 | "AGRÍCOLA" lowercases to "agrícola" and asks for the location |
| AgentV2.Refusal | app/agent/test_Agent/agentv2.py:112-114 | a refusal message starts with "Error: " |
| AgentV2.ValidateAndProcessInput | app/agent/test_Agent/agentv2.py:96-114 | accepted exactly when there are three tokens, two numbers and a valid lowercased period, returned as such; otherwise a message starting "Error: " |
| AgentV2.RefusalReasons | app/agent/test_Agent/agentv2.py:99-114 | the first failing check decides the error: a missing token, a non-number, then an invalid period |
| AgentV2.ExtraTokensIgnored | app/agent/test_Agent/agentv2.py:99-106 | words after the third never change the result |
| AgentV2.AcceptedPeriodUnknownToTool | app/agent/test_Agent/agentv2.py:106-110 | every accepted period is unknown to the prediction tool |
| AgentV2.AskCultivos | app/agent/test_Agent/agentv2.py:72-81 | one fixed assistant message, whatever the state |
| AgentV2.AskForLocationAndPeriod | app/agent/test_Agent/agentv2.py:84-93 | one fixed assistant message, whatever the state |
| AgentV2.LocationQuestionExample | app/agent/test_Agent/agentv2.py:89 | the question gives "4.6 -74.08" as its example |
| AgentV2.TwoNumbersRefused | app/agent/test_Agent/agentv2.py:99-103 | an answer of two numbers, shaped like the question's example, is refused for a missing token |
| AgentV2.AcceptedInputNeverReachesTool | app/agent/test_Agent/agentv2.py:110-121 | as written, unpacking fails exactly for accepted answers, and no answer reaches the tool |
| AgentV2.WellFormedAnswerRaises | app/agent/test_Agent/agentv2.py:121 | every answer of two numbers and a valid period, such as "4.6 -74.08 diaria", ends in the unpacking ValueError |
| AgentV2.ValidateFourValues | app/agent/test_Agent/agentv2.py:110-114 | four values on both paths, with no error message exactly when accepted |
| AgentV2.AcceptedInputReachesTool | app/agent/test_Agent/agentv2.py:121-135 | with four values an accepted answer reaches the tool with its coordinates and period, and a refused one gets its message |
| AgentV2.AgentNode | app/agent/test_Agent/agentv2.py:155-165 | every earlier attempt was rejected; the output is the first valid one, from the messages alone, or its exception |
| AgentV2.GraphEdgesV2 | app/agent/test_Agent/agentv2.py:195-199 | the crop question is unreachable and only the start leads to the agent; after the tools the run goes back to them exactly when the last message is an AI message with tool calls, ends exactly when it is one without, and otherwise raises AttributeError |
| AgentV2.ToolsNeverRepeat | app/agent/test_Agent/agentv2.py:167-172 | after the tools have answered an AI message, the tools step is never taken again: no tool results end the run, tool results raise the AttributeError of a ToolMessage |
| AgriculturePredictions.EndpointFor | app/agent/tools/get_agriculture_predictions.py:7-12 | an endpoint exactly for the four period names after lowercasing, the one the table maps it to |
| AgriculturePredictions.EndpointIgnoresCase | app/agent/tools/get_agriculture_predictions.py:28 | a period and its lowercase form select the same endpoint |
| AgriculturePredictions.FormatFixed2 | app/agent/tools/get_agriculture_predictions.py:47 | `:.2f` succeeds exactly on floats, bools and ints that convert to a float; an int of magnitude 2^1024 - 2^970 or more raises OverflowError, and other values the format's TypeError or ValueError |
| AgriculturePredictions.HugePredictionOverflows | app/agent/tools/get_agriculture_predictions.py:44-51 | a first "tomorrow" value too large for a double ends the report in OverflowError |
| AgriculturePredictions.UnpackFour | app/agent/tools/get_agriculture_predictions.py:44 | a list unpacks exactly when it has four elements, into those elements |
| AgriculturePredictions.GetAgriculturePredictions | app/agent/tools/get_agriculture_predictions.py:17-70 | an invalid period gives the exact message and makes no request; otherwise one GET of base URL plus endpoint with the fixed coordinates; a request failure becomes "Error retrieving predictions: " text; a fetched payload gives the "predictions" read error, or the tomorrow report for "tomorrow" and the period report otherwise |
| AgriculturePredictions.CoordinatesIgnored | app/agent/tools/get_agriculture_predictions.py:37 | the passed latitude and longitude never change the result |
| AgriculturePredictions.SpanishPeriodsUnknown | app/agent/tools/get_agriculture_predictions.py:7-12 | "diaria", "semanal" and "mensual" are not valid periods |
| AgriculturePredictions.TomorrowReportLines | app/agent/tools/get_agriculture_predictions.py:42-51 | four numbers give five lines: the heading, then T2M, PRECTOT, WS10M, RH2M with one value each |
| AgriculturePredictions.CapitalizedPeriodNames | app/agent/tools/get_agriculture_predictions.py:60 | the headings are "Week", "Month" and "Quarter" |
| AgriculturePredictions.PeriodHeading | app/agent/tools/get_agriculture_predictions.py:60 | a valid non-tomorrow period in any case capitalises to one of those headings |
| AgriculturePredictions.RangeLineOfRange | app/agent/tools/get_agriculture_predictions.py:61-64 | a statistics record gives the line with its minimum, maximum and average |
| AgriculturePredictions.PeriodReportOfRanges | app/agent/tools/get_agriculture_predictions.py:52-65 | four statistics records give the heading followed by the four parameter lines |
| AgriculturePredictions.PeriodReportLines | app/agent/tools/get_agriculture_predictions.py:52-65 | four statistics records give five lines: the capitalised heading, then min, max and average per parameter in report order |
| AgriculturePredictions.ToolReportLines | app/agent/tools/get_agriculture_predictions.py:27-67 | a fetch of well-formed predictions makes the tool answer five lines: for "tomorrow" the heading and one value per parameter, otherwise the capitalised heading and min, max and average per parameter, in report order |
| PyStrings.ParseIntString | app/api/whatsapp.py:21 | `int()` reads back the decimal text of any integer |
| PyStrings.IntDigitCountOfString | app/api/whatsapp.py:21 | the digits `int()` counts in `str(i)` are exactly the decimal digits of i's magnitude |
| PyStrings.SplitJoinWords | app/agent/test_Agent/agentv2.py:99 | `split()` recovers the words of a single-space join |
| PyStrings.ContainsIff | app/agent/test_Agent/agentv2.py:189 | `in` holds exactly when some slice equals the substring |
| PyStrings.CapitalizeOfLower | app/agent/tools/get_agriculture_predictions.py:60 | capitalising ignores the case the text came in |
| PyValues.Subscript | app/services/whatsapp.py:22 | a missing key is KeyError, an out-of-range index IndexError, a wrong container TypeError |

## Findings

| source | as written | input that shows it | evidently intended | confidence | as-written member | corrected member |
|---|---|---|---|---|---|---|
| app/agent/test_Agent/agentv2.py:110 | `validate_and_process_input` returns three values on success, but `handle_agriculture_prediction` unpacks four (line 121) | "4.6 -74.08 diaria": the unpacking raises "not enough values to unpack (expected 4, got 3)" | return `lat, lon, period, None` so that a valid answer reaches the prediction tool | high, not executed | AgentV2.AcceptedInputNeverReachesTool | AgentV2.AcceptedInputReachesTool |

## Left out

- **Language model and graph framework.** The language model, the prompt templates, tool binding, `ToolNode`, the compiled graph runtime and its checkpointer are not modelled. The model is a function parameter. The graph is modelled only by its edges, and a run is a function parameter.
- **Recursion limit.** The graph runtime's recursion limit is not modelled.
- **Dynamic tool discovery.** Loading tool modules from the tools directory is filesystem reflection and is not modelled.
- **HTTP clients and the JSON decoding of request bodies.** Their results are inputs. `app/agent/tools/get_weather.py` is not part of this model.
- **Floats.**
  - `float()` is a predicate on tokens, so a validated latitude and longitude remain the token text.
  - `:.2f` is a rendering function. Only its failures are modelled: the format errors of non-numbers and the OverflowError of an int too large for a double.
  - Coordinates in the location text are the text `str()` gives them.
- **String representations.**
  - Exception texts that embed `repr` (KeyError keys, the `float()` error) quote with `'`. Python's escaping of quotes inside the text is not modelled.
  - `lower` and `capitalize` are modelled for Latin-1. Python also lowercases other scripts and special cases such as the Kelvin sign, which the model leaves unchanged.
  - `int()` is modelled for ASCII digits with optional sign, surrounding whitespace (what `isspace()` accepts, except U+001C to U+001F, which the integer parser does not skip) and single underscores, under the default limit of 4300 digits that Python has applied since 3.11 (the source never changes it). Python also accepts other Unicode digits. A malformed string that starts with a run of more than 4300 digits gets the invalid-literal ValueError in the model, where Python reports the digit limit; both are ValueErrors.
- **Concurrency.** The asynchronous execution and the running of background tasks are not modelled, so neither is the race between two concurrent find-or-create steps. Each turn is one sequential call.
- **Database mechanics.** The SQL query, commit and refresh mechanics, the server-side `created_at` default of sessions, `uuid4` and `utcnow` are replaced by the in-memory tables, a passed-in id and the store clock.
- `WhatsAppService.process_agent_response`: not modelled. Nothing calls it, and its `create_message` call lacks the session id.
- `handle_agriculture_prediction`: only its unpacking and the choice between replying and calling the tool are modelled. The call with an unknown `day` argument and the indexing of the tool's string result are not.
- **The second graph's `process_message`.** Its config carries only the thread id and the time, and its reply selection is `Agent.ProcessMessage`'s.
- **The second graph's `should_continue`.** It is the first graph's, and `Agent.ShouldContinue` models both.
- `app/agent/test_Agent/specialized_agents.py`, `main.py`, `app/core/config.py` and `app/schemas/chat.py` are not part of this model. Configuration values are the `Settings` record.
- **Nodes without an outgoing edge.** In the second graph such nodes are taken to end the run. Whether the framework rejects such a graph at compile time is not modelled.
- Agent.RetryUntilValid: a ghost bound names an attempt whose output is not rejected. This is the only way the loop ends; an unbounded run that never ends is excluded by this requirement rather than modelled. Agent.CallAssistant, Agent.CallModel and AgentV2.AgentNode inherit the requirement.
- AgriculturePredictions.UnpackFour: a dict of four entries unpacks to its keys in insertion order. The model does not track that order, because every key is a string and the first format fails whichever key comes first. It returns that ValueError directly.
- ChatDao.History: messages stamped with the same `created_at` come newest-inserted first. SQL promises no order among equal stamps, so which of several equally stamped rows a limit keeps is the model's choice. `HistoryNewestFirst` and `HistoryOmitsOnlyOlder` compare stamps with `>=` and `<=`, which every tie order satisfies, and `HistoryShowsLatestWrite` requires a strictly latest stamp.
- MessageProcessor.ProcessMessageFromChannel: the sender is a string. The WhatsApp channel passes the payload's "from" value through unchecked, and a value of another type reaching the schema's `sender` field is not modelled.
- MessageProcessor.Exchange: a reply from `process_message` that is not a string would fail the schema's validation of the bot message; the model folds that case into the agent's exception, which ends the turn at the same point with the same store.
- ChatDao.FindByUserAndChannel: when a pair has several sessions, `.first()` without an ORDER BY may return any of them. The model returns the earliest stored; its contract promises only some session of the pair. Sequential turns never create a second one (`TurnKeepsOneSessionPerPair`).
- ChatDao.ChatStore.GetChatHistory: the limit is a natural number. A negative limit, which SQLite reads as no limit and PostgreSQL rejects, is not modelled, and no caller passes one.

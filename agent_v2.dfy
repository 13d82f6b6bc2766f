/**
 * The second agent graph (`app/agent/test_Agent/agentv2.py`): keyword
 * routing after the agent node, the validation of a "latitude longitude
 * period" answer, the two fixed questions, and the edges between the nodes.
 * The validity predicate, the retry loop and `should_continue` are the
 * ones of the first agent.
 *
 * Floats are abstract. A token is a number when `isNumber` says so, and a
 * validated latitude or longitude is kept as the token it was parsed from.
 */
module AgentV2 {
  import opened Wrappers
  import opened PyStrings
  import opened PyValues
  import opened Agent
  import AgriculturePredictions

  /** Where `delegate_task` sends the run after the agent node. */
  datatype Route = ToTools | ToAskLocationAndPeriod | ToEnd

  /**
   * `delegate_task`: lowercases the last message; "clima" goes to the tools
   * and wins over everything else; otherwise "predicciones" or "agrícola"
   * asks for the location; anything else ends the run. An empty history
   * has no last message, and a list content has no `lower`.
   */
  function DelegateTask(messages: seq<Message>): (r: Result<Route, PyError>)
    ensures r.Err? <==> messages == [] || messages[|messages| - 1].content.Parts?
    ensures r == Ok(ToTools) <==>
              messages != [] && messages[|messages| - 1].content.Text?
              && Contains(Lower(messages[|messages| - 1].content.s), "clima")
    ensures r == Ok(ToAskLocationAndPeriod) <==>
              messages != [] && messages[|messages| - 1].content.Text?
              && !Contains(Lower(messages[|messages| - 1].content.s), "clima")
              && (Contains(Lower(messages[|messages| - 1].content.s), "predicciones")
                  || Contains(Lower(messages[|messages| - 1].content.s), "agrícola"))
  {
    if messages == [] then Err(IndexError("list index out of range"))
    else
      match messages[|messages| - 1].content
      case Parts(_) => Err(AttributeError("'list' object has no attribute 'lower'"))
      case Text(s) =>
        var text := Lower(s);
        if Contains(text, "clima") then Ok(ToTools)
        else if Contains(text, "predicciones") || Contains(text, "agrícola") then Ok(ToAskLocationAndPeriod)
        else Ok(ToEnd)
  }

  /** The routing does not depend on letter case: a message and its lowercase form go the same way. */
  lemma DelegateIgnoresCase(messages: seq<Message>, role: Role, s: string, calls: seq<ToolCall>)
    ensures DelegateTask(messages + [Message(role, Text(s), calls)])
            == DelegateTask(messages + [Message(role, Text(Lower(s)), calls)])
  {
    LowerIdempotent(s);
  }

  /** A capitalised "Clima" routes to the tools even when predictions are asked for too. */
  lemma ClimaTakesPrecedence(rest: string)
    ensures DelegateTask([Message(Human, Text("Clima " + rest), [])]) == Ok(ToTools)
  {
    var s := "Clima " + rest;
    assert Lower(s)[..5] == "clima";
    assert StartsWith(Lower(s), "clima");
  }

  /** A text lacking one of the characters of `sub` does not contain `sub`. */
  lemma MissingCharNotContained(s: string, sub: string, j: nat)
    requires j < |sub|
    requires forall i :: 0 <= i < |s| ==> s[i] != sub[j]
    ensures !Contains(s, sub)
  {
    ContainsIff(s, sub);
  }

  /** "AGRÍCOLA" in capitals is lowered to "agrícola" and asks for the location. */
  lemma AgricolaInCapitals(s: string)
    requires s == "AGRÍCOLA"
    ensures DelegateTask([Message(Human, Text(s), [])]) == Ok(ToAskLocationAndPeriod)
  {
    var text := Lower(s);
    assert text[0] == 'a' && text[1] == 'g' && text[2] == 'r' && text[3] == 'í';
    assert text[4] == 'c' && text[5] == 'o' && text[6] == 'l' && text[7] == 'a';
    assert text[..8] == "agrícola";
    MissingCharNotContained(text, "clima", 3);
  }

  /** The periods the validation accepts. */
  const ValidPeriods := ["diaria", "semanal", "mensual"]

  const ErrorSuffix := ". Por favor, proporciona la latitud, longitud y el período correctamente."
  const IndexOutOfRange := IndexError("list index out of range")
  const InvalidPeriod := ValueError("Período inválido")

  /** The ValueError `float(t)` raises on a token that is not a number. */
  function FloatError(t: string): PyError {
    ValueError("could not convert string to float: '" + t + "'")
  }

  /**
   * The result of `validate_and_process_input`: a triple of latitude,
   * longitude and lowercased period, or a quadruple whose last element is
   * the error message.
   */
  datatype Validation = Accepted(lat: string, lon: string, period: string) | Refused(errorMessage: string)

  /** The error message for an IndexError or ValueError raised during validation. */
  function Refusal(e: PyError): (r: Validation)
    ensures r.Refused? && StartsWith(r.errorMessage, "Error: ")
  {
    Refused("Error: " + ExceptionText(e) + ErrorSuffix)
  }

  /**
   * `validate_and_process_input`: the first two whitespace-separated tokens
   * must be numbers and the lowercased third a valid period. The checks run
   * in that order, and the first one that fails decides the message.
   */
  function ValidateAndProcessInput(userInput: string, isNumber: string -> bool): (r: Validation)
    ensures var t := Split(userInput);
            r.Accepted? <==> |t| >= 3 && isNumber(t[0]) && isNumber(t[1]) && Lower(t[2]) in ValidPeriods
    ensures var t := Split(userInput);
            r.Accepted? ==> r == Accepted(t[0], t[1], Lower(t[2])) && r.period in ValidPeriods
    ensures r.Refused? ==> StartsWith(r.errorMessage, "Error: ")
  {
    var t := Split(userInput);
    if |t| < 1 then Refusal(IndexOutOfRange)
    else if !isNumber(t[0]) then Refusal(FloatError(t[0]))
    else if |t| < 2 then Refusal(IndexOutOfRange)
    else if !isNumber(t[1]) then Refusal(FloatError(t[1]))
    else if |t| < 3 then Refusal(IndexOutOfRange)
    else if Lower(t[2]) !in ValidPeriods then Refusal(InvalidPeriod)
    else Accepted(t[0], t[1], Lower(t[2]))
  }

  /**
   * Which error each refused answer reports: a missing token is an index
   * error, unless an earlier token was not a number; a bad period is
   * reported only after both coordinates parsed.
   */
  lemma RefusalReasons(userInput: string, isNumber: string -> bool)
    ensures var t := Split(userInput);
            var r := ValidateAndProcessInput(userInput, isNumber);
            && (t == [] ==> r == Refusal(IndexOutOfRange))
            && (|t| >= 1 && !isNumber(t[0]) ==> r == Refusal(FloatError(t[0])))
            && (|t| == 2 && isNumber(t[0]) && isNumber(t[1]) ==> r == Refusal(IndexOutOfRange))
            && (|t| >= 3 && isNumber(t[0]) && isNumber(t[1]) && Lower(t[2]) !in ValidPeriods ==>
                  r == Refusal(InvalidPeriod))
  {
  }

  /** Only the first three words count: anything typed after the period is ignored. */
  lemma ExtraTokensIgnored(words: seq<string>, isNumber: string -> bool)
    requires |words| >= 3
    requires forall k :: 0 <= k < |words| ==> IsWord(words[k])
    ensures ValidateAndProcessInput(JoinWords(words), isNumber) == ValidateAndProcessInput(JoinWords(words[..3]), isNumber)
  {
    SplitJoinWords(words);
    SplitJoinWords(words[..3]);
  }

  /** Every period the validation accepts is one the prediction tool rejects. */
  lemma AcceptedPeriodUnknownToTool(userInput: string, isNumber: string -> bool)
    requires ValidateAndProcessInput(userInput, isNumber).Accepted?
    ensures AgriculturePredictions.EndpointFor(ValidateAndProcessInput(userInput, isNumber).period).None?
  {
    AgriculturePredictions.SpanishPeriodsUnknown();
  }

  const AskCultivosText :=
    "¿Sobre qué cultivos te gustaría recibir recomendaciones? Además, ¿prefieres una predicción diaria, semanal o mensual?"
  /** The example answer the location question gives. */
  const LocationExample := "4.6 -74.08"
  const AskLocationText :=
    "Por favor, proporciona la latitud y longitud de tu ubicación en formato numérico (por ejemplo, "
    + LocationExample + LocationQuestionTail

  /** `ask_cultivos_temporalidad`: one fixed assistant question, whatever the state. */
  function AskCultivos(messages: seq<Message>): (r: seq<Message>)
    ensures |r| == 1 && r[0].role == Assistant && r[0].toolCalls == []
    ensures r[0].content == Text(AskCultivosText)
  {
    [Message(Assistant, Text(AskCultivosText), [])]
  }

  /** `ask_for_location_and_period`: one fixed assistant question, whatever the state. */
  function AskForLocationAndPeriod(messages: seq<Message>): (r: seq<Message>)
    ensures |r| == 1 && r[0].role == Assistant && r[0].toolCalls == []
    ensures r[0].content == Text(AskLocationText)
  {
    [Message(Assistant, Text(AskLocationText), [])]
  }

  const LocationQuestionTail := "). Además, ¿te gustaría una predicción diaria, semanal o mensual?"

  /** The location question gives `LocationExample` as its example answer. */
  lemma LocationQuestionExample()
    ensures OccursAt(AskLocationText, LocationExample, 95)
  {
    var before := "Por favor, proporciona la latitud y longitud de tu ubicación en formato numérico (por ejemplo, ";
    assert |before| == 95;
    assert (before + LocationExample + LocationQuestionTail)[95..105] == LocationExample;
  }

  /**
   * An answer of two numbers, shaped like the question's own example, is
   * refused for a missing token.
   */
  lemma TwoNumbersRefused(lat: string, lon: string, isNumber: string -> bool)
    requires IsWord(lat) && IsWord(lon) && isNumber(lat) && isNumber(lon)
    ensures ValidateAndProcessInput(lat + " " + lon, isNumber) == Refusal(IndexOutOfRange)
  {
    var words := [lat, lon];
    assert JoinWords(words[1..]) == lon;
    SplitJoinWords(words);
  }

  /** What `handle_agriculture_prediction` does once it has the validation: reply with the error, or call the tool. */
  datatype PredictionStep =
    | ReplyWith(text: string)
    | InvokeTool(lat: Option<string>, lon: Option<string>, period: Option<string>)

  const UnpackError := ValueError("not enough values to unpack (expected 4, got 3)")

  /**
   * The handler as written: it unpacks four values, but a valid answer
   * yields three, so the unpacking raises and the tool is never reached.
   */
  function HandleInputAsWritten(userInput: string, isNumber: string -> bool): Result<PredictionStep, PyError> {
    match ValidateAndProcessInput(userInput, isNumber)
    case Accepted(_, _, _) => Err(UnpackError)
    case Refused(message) => if message != "" then Ok(ReplyWith(message)) else Ok(InvokeTool(None, None, None))
  }

  /** As written, every accepted answer raises, and no answer reaches the tool. */
  lemma AcceptedInputNeverReachesTool(userInput: string, isNumber: string -> bool)
    ensures HandleInputAsWritten(userInput, isNumber).Err?
            <==> ValidateAndProcessInput(userInput, isNumber).Accepted?
    ensures HandleInputAsWritten(userInput, isNumber).Ok? ==> HandleInputAsWritten(userInput, isNumber).value.ReplyWith?
  {
    var v := ValidateAndProcessInput(userInput, isNumber);
    if v.Refused? {
      assert v.errorMessage[..7] == "Error: ";
    }
  }

  /**
   * Every answer the location question asks for, two numbers and a valid
   * period joined by spaces, ends in the unpacking error; "4.6 -74.08 diaria" is one.
   */
  lemma WellFormedAnswerRaises(lat: string, lon: string, period: string, isNumber: string -> bool)
    requires IsWord(lat) && IsWord(lon) && IsWord(period)
    requires isNumber(lat) && isNumber(lon) && Lower(period) in ValidPeriods
    ensures HandleInputAsWritten(JoinWords([lat, lon, period]), isNumber) == Err(UnpackError)
  {
    var words := [lat, lon, period];
    var answer := JoinWords(words);
    SplitJoinWords(words);
    var t := Split(answer);
    assert t[0] == lat && t[1] == lon && t[2] == period;
    AcceptedInputNeverReachesTool(answer, isNumber);
  }

  /** The validation returning four values on both paths, the last one None on success. */
  datatype FourValues = FourValues(lat: Option<string>, lon: Option<string>, period: Option<string>, errorMessage: Option<string>)

  function ValidateFourValues(userInput: string, isNumber: string -> bool): (r: FourValues)
    ensures r.errorMessage.None? <==> ValidateAndProcessInput(userInput, isNumber).Accepted?
  {
    match ValidateAndProcessInput(userInput, isNumber)
    case Accepted(lat, lon, period) => FourValues(Some(lat), Some(lon), Some(period), None)
    case Refused(message) => FourValues(None, None, None, Some(message))
  }

  /** The handler reading four values, as evidently intended. */
  function HandleInput(userInput: string, isNumber: string -> bool): PredictionStep {
    var four := ValidateFourValues(userInput, isNumber);
    if four.errorMessage.Some? && four.errorMessage.value != "" then ReplyWith(four.errorMessage.value)
    else InvokeTool(four.lat, four.lon, four.period)
  }

  /**
   * With four values, an accepted answer reaches the tool with its
   * coordinates and period, and a refused one is answered with its message.
   */
  lemma AcceptedInputReachesTool(userInput: string, isNumber: string -> bool)
    ensures var v := ValidateAndProcessInput(userInput, isNumber);
            && (v.Accepted? ==> HandleInput(userInput, isNumber) == InvokeTool(Some(v.lat), Some(v.lon), Some(v.period)))
            && (v.Refused? ==> HandleInput(userInput, isNumber) == ReplyWith(v.errorMessage))
  {
    var v := ValidateAndProcessInput(userInput, isNumber);
    if v.Refused? {
      assert v.errorMessage[..7] == "Error: ";
    }
  }

  /**
   * The agent node of this graph: the retry loop on the messages alone.
   * The configuration with the time that the node passes is never read.
   */
  method AgentNode(model: (nat, seq<Message>) -> Message, messages: seq<Message>, ghost bound: nat)
    returns (r: Result<Message, PyError>, attempts: nat)
    requires Rejects(model(bound, WithCorrections(messages, bound))) != Ok(true)
    ensures attempts <= bound
    ensures forall j :: 0 <= j < attempts ==> Rejects(model(j, WithCorrections(messages, j))) == Ok(true)
    ensures r.Ok? ==> IsValidOutput(r.value) && r.value == model(attempts, WithCorrections(messages, attempts))
    ensures r.Err? ==> var rejected := Rejects(model(attempts, WithCorrections(messages, attempts)));
              rejected.Err? && r.error == rejected.error
  {
    r, attempts := RetryUntilValid(model, messages, bound);
  }

  /** The nodes of this graph. */
  datatype NodeV2 = Begin | AgentStep | ToolsStep | AskCultivosStep | AskLocationStep | HandlePredictionStep | Finish

  /**
   * The edges: begin at the agent, agent by `delegate_task`, tools by
   * `should_continue`, the location question to the handler. A node with
   * no outgoing edge ends the run.
   */
  function Successor(node: NodeV2, messages: seq<Message>): Result<NodeV2, PyError>
    requires node != Finish
  {
    match node
    case Begin => Ok(AgentStep)
    case AgentStep =>
      (match DelegateTask(messages)
      case Err(e) => Err(e)
      case Ok(ToTools) => Ok(ToolsStep)
      case Ok(ToAskLocationAndPeriod) => Ok(AskLocationStep)
      case Ok(ToEnd) => Ok(Finish))
    case ToolsStep =>
      (match ShouldContinue(messages)
      case Err(e) => Err(e)
      case Ok(next) => if next == ToolsNode then Ok(ToolsStep) else Ok(Finish))
    case AskLocationStep => Ok(HandlePredictionStep)
    case AskCultivosStep => Ok(Finish)
    case HandlePredictionStep => Ok(Finish)
  }

  /**
   * No edge leads to the crop question, so it is never asked; the agent
   * never returns to itself; after the tools node the run repeats the tools
   * only on an AI message that calls a tool, ends on one that calls none,
   * and raises on any other message.
   */
  lemma GraphEdgesV2(node: NodeV2, messages: seq<Message>)
    requires node != Finish
    ensures Successor(node, messages) != Ok(AskCultivosStep)
    ensures Successor(node, messages) != Ok(AgentStep) <==> node != Begin
    ensures Successor(node, messages) == Ok(ToolsStep) ==>
              messages != [] && (node == AgentStep || messages[|messages| - 1].toolCalls != [])
    ensures Successor(ToolsStep, messages) == Ok(ToolsStep) <==>
              messages != [] && messages[|messages| - 1].role == Assistant && messages[|messages| - 1].toolCalls != []
    ensures Successor(ToolsStep, messages) == Ok(Finish) <==>
              messages != [] && messages[|messages| - 1].role == Assistant && messages[|messages| - 1].toolCalls == []
    ensures messages != [] && messages[|messages| - 1].role != Assistant ==>
              Successor(ToolsStep, messages) == Err(NoToolCalls(MessageClass(messages[|messages| - 1].role)))
  {
  }

  /**
   * What the tools node leaves for `should_continue`. The agent's output
   * reaches the tools when its text mentions "clima", whether or not it
   * calls a tool. With no call the tools node adds nothing and the run ends
   * on that AI message; with calls it adds one tool result per call, and
   * reading `tool_calls` on a tool result raises. So the tools never run
   * twice in a row.
   */
  lemma ToolsNeverRepeat(messages: seq<Message>, results: seq<Message>)
    requires messages != [] && messages[|messages| - 1].role == Assistant
    requires |results| == |messages[|messages| - 1].toolCalls|
    requires forall k :: 0 <= k < |results| ==> results[k].role == ToolResult
    ensures Successor(ToolsStep, messages + results) != Ok(ToolsStep)
    ensures results == [] ==> Successor(ToolsStep, messages + results) == Ok(Finish)
    ensures results != [] ==>
              Successor(ToolsStep, messages + results) == Err(NoToolCalls("ToolMessage"))
  {
    var all := messages + results;
    if results == [] {
      assert all == messages;
    } else {
      assert all[|all| - 1] == results[|results| - 1];
    }
  }
}

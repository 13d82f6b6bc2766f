/**
 * The control logic of the conversational agent (`app/agent/agent.py`)
 * with the language model abstracted: which model outputs are accepted,
 * the retry loop that asks again with a corrective message, the defaults of
 * the prompt variables, the routing after the agent node, and the choice of
 * the reply.
 *
 * The model is a function parameter. It also receives the attempt number,
 * so that asking the same thing twice may give different answers. Clock
 * readings are parameters too.
 */
module Agent {
  import opened Wrappers
  import opened PyValues

  /** An element of a list-valued content: a dict that may hold "text", or a bare string. */
  datatype Part = DictPart(text: Option<string>) | StrPart(s: string)

  /** A message content: a string, or a list of parts. */
  datatype Content = Text(s: string) | Parts(parts: seq<Part>)

  datatype ToolCall = ToolCall(name: string, args: map<string, Json>, id: string)

  /** Who a message is from; `User` is the `("user", text)` form the retry loop appends. */
  datatype Role = Human | User | Assistant | ToolResult

  datatype Message = Message(role: Role, content: Content, toolCalls: seq<ToolCall>)

  const CorrectionText := "Por favor, responde con una salida válida."

  /** The message appended after each rejected output. */
  const Correction := Message(User, Text(CorrectionText), [])

  /**
   * An acceptable model output: it calls a tool, or it has content that is
   * a non-empty string or a list whose first element is a dict with
   * non-empty "text".
   */
  predicate IsValidOutput(m: Message) {
    || m.toolCalls != []
    || (m.content.Text? && m.content.s != "")
    || (m.content.Parts? && |m.content.parts| > 0 && m.content.parts[0].DictPart?
        && m.content.parts[0].text.Some? && m.content.parts[0].text.value != "")
  }

  /**
   * The loop's rejection test as Python evaluates it. It is true for an
   * output that is rejected. It raises when the first element of a list
   * content is a string, which has no `get`.
   */
  function Rejects(m: Message): (r: Result<bool, PyError>)
    ensures r == Ok(false) <==> IsValidOutput(m)
    ensures r.Err? <==> m.toolCalls == [] && m.content.Parts? && |m.content.parts| > 0 && m.content.parts[0].StrPart?
  {
    if m.toolCalls != [] then Ok(false)
    else
      match m.content
      case Text(s) => Ok(s == "")
      case Parts(parts) =>
        if parts == [] then Ok(true)
        else
          match parts[0]
          case DictPart(text) => Ok(text.None? || text.value == "")
          case StrPart(_) => Err(AttributeError("'str' object has no attribute 'get'"))
  }

  /** The history after `k` rejected attempts: the original messages, then `k` corrections. */
  function WithCorrections(history: seq<Message>, k: nat): (r: seq<Message>)
    ensures |r| == |history| + k
    ensures r[..|history|] == history
    ensures forall i :: |history| <= i < |r| ==> r[i] == Correction
  {
    if k == 0 then history else WithCorrections(history, k - 1) + [Correction]
  }

  /**
   * The retry loop shared by both assistants: invoke the model on the
   * history; accept a valid output; otherwise append one correction and ask
   * again. The source places no cap on the attempts: `bound` names an
   * attempt whose output is not rejected, which is what it takes for the
   * loop to end.
   */
  method RetryUntilValid(invoke: (nat, seq<Message>) -> Message, history: seq<Message>, ghost bound: nat)
    returns (r: Result<Message, PyError>, attempts: nat)
    requires Rejects(invoke(bound, WithCorrections(history, bound))) != Ok(true)
    ensures attempts <= bound
    ensures forall j :: 0 <= j < attempts ==> Rejects(invoke(j, WithCorrections(history, j))) == Ok(true)
    ensures var last := invoke(attempts, WithCorrections(history, attempts));
            && (r.Ok? ==> r.value == last && IsValidOutput(last))
            && (r.Err? ==> Rejects(last).Err? && r.error == Rejects(last).error)
            && (Rejects(last) != Ok(true))
  {
    var messages := history;
    var k: nat := 0;
    while true
      invariant k <= bound
      invariant messages == WithCorrections(history, k)
      invariant forall j :: 0 <= j < k ==> Rejects(invoke(j, WithCorrections(history, j))) == Ok(true)
      decreases bound - k
    {
      var result := invoke(k, messages);
      var rejected := Rejects(result);
      if rejected.Err? {
        return Err(rejected.error), k;
      }
      if !rejected.value {
        return Ok(result), k;
      }
      messages := messages + [Correction];
      k := k + 1;
    }
  }

  /** Every retry adds exactly one correction after the history so far, which it leaves as it was. */
  lemma {:induction false} CorrectionsOnlyAppend(history: seq<Message>, k: nat, n: nat)
    requires k <= n
    ensures WithCorrections(history, n)[..|history| + k] == WithCorrections(history, k)
    decreases n - k
  {
    if k < n {
      CorrectionsOnlyAppend(history, k, n - 1);
      var longer := WithCorrections(history, n);
      assert longer[..|history| + n - 1] == WithCorrections(history, n - 1);
      assert longer[..|history| + k] == longer[..|history| + n - 1][..|history| + k];
    }
  }

  /** The keys of `config["configurable"]` that the assistant reads; None is a missing key. */
  datatype Configurable = Configurable(
    threadId: Option<string>, userInfo: Option<string>, userInterest: Option<string>, time: Option<nat>)

  /** A run configuration: the "configurable" dict, if any, and a top-level "time", if any. */
  datatype RunnableConfig = RunnableConfig(configurable: Option<Configurable>, time: Option<nat>)

  /** The variables the prompt is filled with. */
  datatype PromptInput = PromptInput(messages: seq<Message>, userInfo: string, userInterest: string, time: nat)

  const DefaultUserInfo := "Por favor, proporcione su nombre."
  const DefaultUserInterest := "que cultivos tienes o que quieres cultivar? "

  function Configured(config: RunnableConfig): Configurable {
    if config.configurable.Some? then config.configurable.value else Configurable(None, None, None, None)
  }

  /**
   * The prompt input of one attempt: each variable from "configurable" when
   * the key is there, otherwise its default; the default time is the clock
   * reading `now` of that attempt.
   */
  function PromptFor(config: RunnableConfig, now: nat, messages: seq<Message>): (p: PromptInput)
    ensures p.messages == messages
    ensures Configured(config).userInfo.None? ==> p.userInfo == DefaultUserInfo
    ensures Configured(config).userInfo.Some? ==> p.userInfo == Configured(config).userInfo.value
    ensures Configured(config).userInterest.None? ==> p.userInterest == DefaultUserInterest
    ensures Configured(config).userInterest.Some? ==> p.userInterest == Configured(config).userInterest.value
    ensures Configured(config).time.None? ==> p.time == now
    ensures Configured(config).time.Some? ==> p.time == Configured(config).time.value
  {
    var c := Configured(config);
    PromptInput(
      messages,
      if c.userInfo.Some? then c.userInfo.value else DefaultUserInfo,
      if c.userInterest.Some? then c.userInterest.value else DefaultUserInterest,
      if c.time.Some? then c.time.value else now)
  }

  /**
   * `Assistant.__call__`: the retry loop, where attempt `k` fills the
   * prompt from `config` and the clock reading `clock(k)`.
   */
  method CallAssistant(
    model: (nat, PromptInput) -> Message, messages: seq<Message>, config: RunnableConfig,
    clock: nat -> nat, ghost bound: nat)
    returns (r: Result<Message, PyError>, attempts: nat)
    requires Rejects(model(bound, PromptFor(config, clock(bound), WithCorrections(messages, bound)))) != Ok(true)
    ensures attempts <= bound
    ensures forall j :: 0 <= j < attempts ==>
              Rejects(model(j, PromptFor(config, clock(j), WithCorrections(messages, j)))) == Ok(true)
    ensures var last := model(attempts, PromptFor(config, clock(attempts), WithCorrections(messages, attempts)));
            && (r.Ok? ==> r.value == last && IsValidOutput(last))
            && (r.Err? ==> Rejects(last).Err? && r.error == Rejects(last).error)
  {
    r, attempts := RetryUntilValid((k: nat, ms: seq<Message>) => model(k, PromptFor(config, clock(k), ms)), messages, bound);
  }

  /** The config `call_model` hands the assistant: only a top-level "time". */
  function CallModelConfig(now: nat): RunnableConfig {
    RunnableConfig(None, Some(now))
  }

  /** The config `process_message` starts the graph with. */
  function ProcessMessageConfig(threadId: Option<string>, now: nat): RunnableConfig {
    RunnableConfig(Some(Configurable(threadId, Some("Campesino"), Some(" "), Some(now))), None)
  }

  /**
   * The agent node always prompts with the defaults and the attempt's own
   * clock reading. The values `process_message` configures never reach it,
   * although they would change the prompt if they did.
   */
  lemma AgentNodeUsesDefaults(callTime: nat, now: nat, messages: seq<Message>, threadId: Option<string>, startTime: nat)
    ensures PromptFor(CallModelConfig(callTime), now, messages) == PromptInput(messages, DefaultUserInfo, DefaultUserInterest, now)
    ensures PromptFor(ProcessMessageConfig(threadId, startTime), now, messages).userInfo == "Campesino" != DefaultUserInfo
  {
    assert "Campesino"[0] != DefaultUserInfo[0];
  }

  /** `call_model`: the assistant, configured as `call_model` configures it; its output is the node's new message. */
  method CallModel(
    model: (nat, PromptInput) -> Message, messages: seq<Message>, callTime: nat, clock: nat -> nat, ghost bound: nat)
    returns (r: Result<Message, PyError>, attempts: nat)
    requires Rejects(model(bound, PromptInput(WithCorrections(messages, bound), DefaultUserInfo, DefaultUserInterest, clock(bound)))) != Ok(true)
    ensures attempts <= bound
    ensures r.Ok? ==> IsValidOutput(r.value)
    ensures r.Ok? ==>
              r.value == model(attempts, PromptInput(WithCorrections(messages, attempts), DefaultUserInfo, DefaultUserInterest, clock(attempts)))
  {
    AgentNodeUsesDefaults(callTime, clock(bound), WithCorrections(messages, bound), None, 0);
    r, attempts := CallAssistant(model, messages, CallModelConfig(callTime), clock, bound);
    AgentNodeUsesDefaults(callTime, clock(attempts), WithCorrections(messages, attempts), None, 0);
  }

  /** The nodes of the agent graph. */
  datatype Node = Start | AgentNode | ToolsNode | End

  /**
   * The message class LangChain uses for each role; the `("user", text)`
   * form the retry loop appends becomes a human message too.
   */
  function MessageClass(role: Role): string {
    match role
    case Human => "HumanMessage"
    case User => "HumanMessage"
    case Assistant => "AIMessage"
    case ToolResult => "ToolMessage"
  }

  /** The exception raised by reading `tool_calls` on a message of class `cls`. */
  function NoToolCalls(cls: string): PyError {
    AttributeError("'" + cls + "' object has no attribute 'tool_calls'")
  }

  /**
   * `should_continue`: to the tools exactly when the last message calls one.
   * Only an AI message has `tool_calls`; reading it on any other message
   * raises.
   */
  function ShouldContinue(messages: seq<Message>): (r: Result<Node, PyError>)
    ensures r == Ok(ToolsNode) <==>
              |messages| > 0 && messages[|messages| - 1].role == Assistant && messages[|messages| - 1].toolCalls != []
    ensures r == Ok(End) <==>
              |messages| > 0 && messages[|messages| - 1].role == Assistant && messages[|messages| - 1].toolCalls == []
    ensures messages == [] ==> r == Err(IndexError("list index out of range"))
    ensures |messages| > 0 && messages[|messages| - 1].role != Assistant ==>
              r == Err(NoToolCalls(MessageClass(messages[|messages| - 1].role)))
  {
    if messages == [] then Err(IndexError("list index out of range"))
    else
      var last := messages[|messages| - 1];
      if last.role != Assistant then
        Err(NoToolCalls(MessageClass(last.role)))
      else if last.toolCalls != [] then Ok(ToolsNode)
      else Ok(End)
  }

  /** The edges of the graph: start to agent, agent by `should_continue`, tools back to agent. */
  function Next(node: Node, messages: seq<Message>): Result<Node, PyError>
    requires node != End
  {
    match node
    case Start => Ok(AgentNode)
    case AgentNode => ShouldContinue(messages)
    case ToolsNode => Ok(AgentNode)
  }

  /**
   * The run starts at the agent, the tools always lead back to it, and the
   * run ends only after the agent produced an AI message that calls no
   * tool. After the agent node the last message is the model's output; if
   * that is not an AI message, routing raises.
   */
  lemma GraphEdges(node: Node, messages: seq<Message>)
    requires node != End
    ensures Next(Start, messages) == Ok(AgentNode)
    ensures Next(ToolsNode, messages) == Ok(AgentNode)
    ensures Next(node, messages) == Ok(End) <==>
              && node == AgentNode && |messages| > 0
              && messages[|messages| - 1].role == Assistant && messages[|messages| - 1].toolCalls == []
    ensures Next(node, messages) == Ok(ToolsNode) ==> node == AgentNode
    ensures Next(node, messages).Err? ==>
              node == AgentNode && (messages == [] || messages[|messages| - 1].role != Assistant)
  {
  }

  /**
   * `process_message`: runs the graph on one human message carrying the
   * input, with the thread id, and answers with the content of the last
   * message of the final state. The graph run is a parameter.
   */
  function ProcessMessage(
    input: string, threadId: Option<string>, now: nat,
    runGraph: (seq<Message>, RunnableConfig) -> seq<Message>): (r: Result<Content, PyError>)
    ensures var final := runGraph([Message(Human, Text(input), [])], ProcessMessageConfig(threadId, now));
            && (r.Ok? <==> final != [])
            && (r.Ok? ==> r.value == final[|final| - 1].content)
  {
    var final := runGraph([Message(Human, Text(input), [])], ProcessMessageConfig(threadId, now));
    if final == [] then Err(IndexError("list index out of range")) else Ok(final[|final| - 1].content)
  }
}

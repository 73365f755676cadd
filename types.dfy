/** The values the orchestration core exchanges with its collaborators: the
    definitions, messages, tool calls, requests and outputs of the agent
    runtime's core crate, reduced to the fields the core reads or writes. */
module Types {
  import opened Wrappers

  type Bytes = seq<bv8>

  /** An engine or caller identity, kept as its raw bytes. */
  type Principal = Bytes

  /** A machine-readable description of a tool or agent, advertised to the model. */
  datatype FunctionDefinition = FunctionDefinition(
    name: string,
    description: string,
    parameters: string,
    strict: Option<bool>)
  {
    /** `name_with_prefix`: the same definition under the name `prefix + name`. */
    function WithPrefix(prefix: string): (d: FunctionDefinition)
      ensures d.name == prefix + name
      ensures d.(name := name) == this
    {
      this.(name := prefix + name)
    }
  }

  /** `defs.iter().any(|t| t.name == name)`: some definition in `defs` is called `name`. */
  predicate Offers(defs: seq<FunctionDefinition>, name: string) {
    exists d :: d in defs && d.name == name
  }

  /** Token accounting of one or more model invocations. */
  datatype Usage = Usage(inputTokens: nat, outputTokens: nat, requests: nat) {

    /** `accumulate`: the componentwise sum of two usages. */
    function Add(other: Usage): (u: Usage)
      ensures u.inputTokens == inputTokens + other.inputTokens
      ensures u.outputTokens == outputTokens + other.outputTokens
      ensures u.requests == requests + other.requests
    {
      Usage(inputTokens + other.inputTokens, outputTokens + other.outputTokens, requests + other.requests)
    }
  }

  /** `Usage::default()`. */
  const NoUsage := Usage(0, 0, 0)

  /** A call the model asks for; `result` is filled in once the call has run. */
  datatype ToolCall = ToolCall(id: string, name: string, args: string, result: Option<string>)

  /** A chat message; the core only ever builds tool-role messages. */
  datatype Message = Message(role: string, content: string, name: Option<string>, toolCallId: Option<string>)

  /** The tool-role message that answers the call `id` with `content`. */
  function ToolMessage(id: string, content: string): Message {
    Message("tool", content, None, Some(id))
  }

  /** What a model invocation or an agent run returns. */
  datatype AgentOutput = AgentOutput(
    content: string,
    failedReason: Option<string>,
    toolCalls: Option<seq<ToolCall>>,
    fullHistory: Option<seq<Message>>,
    usage: Usage)

  /** A request to the model; `tools` is the set of definitions currently offered. */
  datatype CompletionRequest = CompletionRequest(
    system: Option<string>,
    prompt: string,
    chatHistory: seq<Message>,
    documents: seq<string>,
    tools: seq<FunctionDefinition>)
}

/** The execution context (`AgentCtx`) and its child derivation, the remote
    engine directory, and the collaborators the core calls into, which the
    model takes as oracles. */
module Context {
  import opened Wrappers
  import opened Types

  /** Strict lexicographic order on strings, the order `BTreeMap<String, _>` iterates in. */
  predicate StrLess(a: string, b: string)
    decreases |a|
  {
    |b| > 0 && (|a| == 0 || a[0] < b[0] || (a[0] == b[0] && StrLess(a[1..], b[1..])))
  }

  /** What a peer engine publishes about itself. */
  datatype EngineInformation = EngineInformation(
    id: Principal,
    name: string,
    endpoint: string,
    agentDefinitions: seq<FunctionDefinition>,
    toolDefinitions: seq<FunctionDefinition>)

  predicate KeysAscending(engines: seq<(string, EngineInformation)>) {
    forall i, j :: 0 <= i < j < |engines| ==> StrLess(engines[i].0, engines[j].0)
  }

  /** The remote engine directory: a `BTreeMap` from routing prefix to engine,
      as its entries in iteration (ascending key) order. */
  type EngineMap = engines: seq<(string, EngineInformation)> | KeysAscending(engines) witness []

  /** The part of the base context the core reads or sets: identities and
      the path of labels of the calls that led here. */
  datatype BaseCtx = BaseCtx(id: Principal, caller: Principal, user: Option<string>, path: seq<string>) {

    /** The base context of a nested call labelled `segment`. */
    function Child(segment: string): (c: BaseCtx)
      ensures c.path == path + [segment]
      ensures c.id == id && c.caller == caller && c.user == user
    {
      this.(path := path + [segment])
    }

    /** As `Child`, acting for `caller` and `user`. */
    function ChildWith(segment: string, caller': Principal, user': Option<string>): (c: BaseCtx)
      ensures c.path == path + [segment]
      ensures c.id == id && c.caller == caller' && c.user == user'
    {
      this.(path := path + [segment], caller := caller', user := user')
    }
  }

  /** A handle on the completion model; what it answers is `Env.complete`. */
  datatype Model = Model(name: string)

  /** The context label of a local agent call. */
  function AgentLabel(name: string): string { "A:" + name }

  /** The context label of a local tool call. */
  function ToolLabel(name: string): string { "T:" + name }

  datatype AgentCtx = AgentCtx(
    base: BaseCtx,
    model: Model,
    tools: seq<FunctionDefinition>,
    agents: seq<FunctionDefinition>,
    remoteEngines: EngineMap)
  {
    /** `child`: the context a local agent runs in. */
    function Child(agentName: string): (c: AgentCtx)
      ensures c.base.path == base.path + [AgentLabel(agentName)]
      ensures c.base.id == base.id && c.base.caller == base.caller && c.base.user == base.user
      ensures c.model == model && c.tools == tools && c.agents == agents && c.remoteEngines == remoteEngines
    {
      this.(base := base.Child(AgentLabel(agentName)))
    }

    /** `child_base`: the base context a local tool runs in. */
    function ChildBase(toolName: string): (c: BaseCtx)
      ensures c.path == base.path + [ToolLabel(toolName)]
      ensures c.id == base.id && c.caller == base.caller && c.user == base.user
    {
      base.Child(ToolLabel(toolName))
    }

    /** `child_with`: as `Child`, acting for `caller` and `user`. */
    function ChildWith(agentName: string, caller: Principal, user: Option<string>): (c: AgentCtx)
      ensures c.base.path == base.path + [AgentLabel(agentName)]
      ensures c.base.id == base.id && c.base.caller == caller && c.base.user == user
      ensures c.model == model && c.tools == tools && c.agents == agents && c.remoteEngines == remoteEngines
    {
      this.(base := base.ChildWith(AgentLabel(agentName), caller, user))
    }

    /** `child_base_with`: as `ChildBase`, acting for `caller` and `user`. */
    function ChildBaseWith(toolName: string, caller: Principal, user: Option<string>): (c: BaseCtx)
      ensures c.path == base.path + [ToolLabel(toolName)]
      ensures c.id == base.id && c.caller == caller && c.user == user
    {
      base.ChildWith(ToolLabel(toolName), caller, user)
    }
  }

  /** A child's label names its call unambiguously: agent and tool labels
      never coincide, and the label determines the name. */
  lemma {:induction false} ChildLabelsIdentifyCall(ctx: AgentCtx, a: string, b: string)
    ensures ctx.Child(a).base.path != ctx.ChildBase(b).path
    ensures ctx.Child(a).base.path == ctx.Child(b).base.path ==> a == b
    ensures ctx.ChildBase(a).path == ctx.ChildBase(b).path ==> a == b
  {
    var n := |ctx.base.path|;
    assert ctx.Child(a).base.path[n][0] == 'A';
    assert ctx.ChildBase(b).path[n][0] == 'T';
    if ctx.Child(a).base.path == ctx.Child(b).base.path {
      assert AgentLabel(a) == ctx.Child(a).base.path[n] == AgentLabel(b);
      assert a == AgentLabel(a)[2..] == AgentLabel(b)[2..] == b;
    }
    if ctx.ChildBase(a).path == ctx.ChildBase(b).path {
      assert ToolLabel(a) == ctx.ChildBase(a).path[n] == ToolLabel(b);
      assert a == ToolLabel(a)[2..] == ToolLabel(b)[2..] == b;
    }
  }

  /** The positional arguments of a signed RPC. */
  datatype RpcArgs =
    | ToolCallArgs(toolName: string, args: string)
    | AgentRunArgs(agentName: string, prompt: string, attachment: Option<Bytes>)

  /** A call the core hands to a collaborator: a signed RPC to a peer engine,
      or a local tool or agent run in a child context. */
  datatype Dispatch =
    | SignedRpc(endpoint: string, rpcMethod: string, rpcArgs: RpcArgs)
    | LocalTool(toolCtx: BaseCtx, name: string, args: string)
    | LocalAgent(agentCtx: AgentCtx, name: string, prompt: string, attachment: Option<Bytes>)

  /** The collaborators, as total functions: what the model answers to a
      request, what a tool dispatch and an agent dispatch return (including
      transport and signature errors), and the parse of an agent call's
      argument payload into its prompt. */
  datatype Env = Env(
    complete: (Model, CompletionRequest) -> Result<AgentOutput, string>,
    callTool: Dispatch -> Result<string, string>,
    runAgent: Dispatch -> Result<AgentOutput, string>,
    parsePrompt: string -> Result<string, string>)
}

/** The name router of `tool_call` and `agent_run`: `RT_` and `RA_` names go
    to the first remote engine, in key order, whose key prefixes the rest of
    the name; other names are looked up in the local registries. */
module Router {
  import opened Wrappers
  import opened Types
  import opened Seqs
  import opened Context

  /** Where a call name resolves to: a dispatch, or the "not found" error. */
  datatype Route = Dispatched(sent: Dispatch) | NotFound(error: string) {

    /** The dispatch handed to a collaborator, if any. */
    function Sent(): Option<Dispatch> {
      match this
      case Dispatched(d) => Some(d)
      case NotFound(_) => None
    }

    /** What a tool call on this route returns: the runner's reply, or the "not found" error. */
    function ToolReply(env: Env): Result<string, string> {
      match this
      case Dispatched(d) => env.callTool(d)
      case NotFound(e) => Err(e)
    }

    /** What an agent run on this route returns: the runner's reply, or the "not found" error. */
    function AgentReply(env: Env): Result<AgentOutput, string> {
      match this
      case Dispatched(d) => env.runAgent(d)
      case NotFound(e) => Err(e)
    }
  }

  /** `strip_prefix`: the rest of `s` after `prefix`, when `s` starts with it. */
  function StripPrefix(prefix: string, s: string): (r: Option<string>)
    ensures r.Some? <==> prefix <= s
    ensures r.Some? ==> s == prefix + r.value
  {
    if prefix <= s then Some(s[|prefix|..]) else None
  }

  lemma PrefixConcat(tag: string, key: string, name: string)
    ensures tag + key <= name <==> tag <= name && key <= name[|tag|..]
  {
    if tag + key <= name {
      assert name[..|tag|] == (tag + key)[..|tag|] == tag;
      assert name[|tag|..][..|key|] == (tag + key)[|tag|..] == key;
    }
    if tag <= name && key <= name[|tag|..] {
      assert name[..|tag| + |key|] == name[..|tag|] + name[|tag|..][..|key|];
    }
  }

  /** Engine `i` is the first, in key order, whose key follows `tag` at the start of `name`. */
  predicate FirstRemote(engines: EngineMap, tag: string, name: string, i: nat) {
    && i < |engines|
    && tag + engines[i].0 <= name
    && forall j :: 0 <= j < i ==> !(tag + engines[j].0 <= name)
  }

  /** No engine's key follows `tag` at the start of `name` (in particular when `name` does not start with `tag`). */
  predicate NoRemote(engines: EngineMap, tag: string, name: string) {
    forall j :: 0 <= j < |engines| ==> !(tag + engines[j].0 <= name)
  }

  /** Two prefixes of the same string are prefixes of one another. */
  lemma PrefixesComparable(a: string, b: string, s: string)
    requires a <= s && b <= s
    ensures a <= b || b <= a
  {
    if |a| <= |b| {
      assert b[..|a|] == s[..|a|] == a;
    } else {
      assert a[..|b|] == s[..|b|] == b;
    }
  }

  /** A string is never below one of its own prefixes. */
  lemma {:induction false} PrefixNotBelow(a: string, b: string)
    requires b <= a
    ensures !StrLess(a, b)
  {
    if |b| > 0 {
      assert a[0] == b[0];
      assert b[1..] <= a[1..];
      PrefixNotBelow(a[1..], b[1..]);
    }
  }

  /** Because the directory iterates in ascending key order, the first key
      that follows `tag` in `name` is a prefix of every other such key, so
      the router in effect matches the shortest key. */
  lemma FirstRemoteIsShortest(engines: EngineMap, tag: string, name: string, i: nat, j: nat)
    requires FirstRemote(engines, tag, name, i)
    requires j < |engines| && tag + engines[j].0 <= name
    ensures engines[i].0 <= engines[j].0 && |engines[i].0| <= |engines[j].0|
  {
    PrefixConcat(tag, engines[i].0, name);
    PrefixConcat(tag, engines[j].0, name);
    PrefixesComparable(engines[i].0, engines[j].0, name[|tag|..]);
    if i != j && engines[j].0 <= engines[i].0 {
      PrefixNotBelow(engines[i].0, engines[j].0);
    }
  }

  /** The engine the loop over `remote_engines` stops at for `name`, if any. */
  function RemoteMatch(engines: EngineMap, tag: string, name: string): (r: Option<nat>)
    ensures r.Some? ==> FirstRemote(engines, tag, name, r.value)
    ensures r.None? ==> NoRemote(engines, tag, name)
  {
    forall j | 0 <= j < |engines| {
      PrefixConcat(tag, engines[j].0, name);
    }
    match StripPrefix(tag, name)
    case None => None
    case Some(rest) => FirstIndex(engines, (e: (string, EngineInformation)) => e.0 <= rest)
  }

  /** `remote_tool_call`: the signed RPC for the tool `name` of the engine at `endpoint`. */
  function RemoteToolCall(endpoint: string, name: string, args: string): (d: Dispatch)
    ensures d.SignedRpc? && d.endpoint == endpoint && d.rpcMethod == "tool_call"
    ensures d.rpcArgs == ToolCallArgs(name, args)
  {
    SignedRpc(endpoint, "tool_call", ToolCallArgs(name, args))
  }

  /** `remote_agent_run`: the signed RPC for the agent `name` of the engine at `endpoint`. */
  function RemoteAgentRun(endpoint: string, name: string, prompt: string, attachment: Option<Bytes>): (d: Dispatch)
    ensures d.SignedRpc? && d.endpoint == endpoint && d.rpcMethod == "agent_run"
    ensures d.rpcArgs == AgentRunArgs(name, prompt, attachment)
  {
    SignedRpc(endpoint, "agent_run", AgentRunArgs(name, prompt, attachment))
  }

  /** Where `tool_call(name, args)` sends the call. */
  function ToolRoute(ctx: AgentCtx, name: string, args: string): (r: Route)
    ensures forall i: nat :: FirstRemote(ctx.remoteEngines, "RT_", name, i) ==>
      r == Dispatched(RemoteToolCall(ctx.remoteEngines[i].1.endpoint, name[3 + |ctx.remoteEngines[i].0|..], args))
    ensures NoRemote(ctx.remoteEngines, "RT_", name) ==>
      r == if Offers(ctx.tools, name) then Dispatched(LocalTool(ctx.ChildBase(name), name, args))
           else NotFound("tool " + name + " not found")
  {
    match RemoteMatch(ctx.remoteEngines, "RT_", name)
    case Some(i) =>
      Dispatched(RemoteToolCall(ctx.remoteEngines[i].1.endpoint, name[3 + |ctx.remoteEngines[i].0|..], args))
    case None =>
      if Offers(ctx.tools, name) then Dispatched(LocalTool(ctx.ChildBase(name), name, args))
      else NotFound("tool " + name + " not found")
  }

  /** The name `agent_run` looks up locally: `name` without a leading `LA_`. */
  function LocalAgentName(name: string): (n: string)
    ensures "LA_" <= name ==> name == "LA_" + n
    ensures !("LA_" <= name) ==> n == name
  {
    StripPrefix("LA_", name).GetOr(name)
  }

  /** Where `agent_run(name, prompt, attachment)` sends the call. */
  function AgentRoute(ctx: AgentCtx, name: string, prompt: string, attachment: Option<Bytes>): (r: Route)
    ensures forall i: nat :: FirstRemote(ctx.remoteEngines, "RA_", name, i) ==>
      r == Dispatched(RemoteAgentRun(ctx.remoteEngines[i].1.endpoint, name[3 + |ctx.remoteEngines[i].0|..], prompt, attachment))
    ensures NoRemote(ctx.remoteEngines, "RA_", name) ==>
      var local := LocalAgentName(name);
      r == if Offers(ctx.agents, local) then Dispatched(LocalAgent(ctx.Child(local), local, prompt, attachment))
           else NotFound("agent " + local + " not found")
  {
    match RemoteMatch(ctx.remoteEngines, "RA_", name)
    case Some(i) =>
      Dispatched(RemoteAgentRun(ctx.remoteEngines[i].1.endpoint, name[3 + |ctx.remoteEngines[i].0|..], prompt, attachment))
    case None =>
      var local := LocalAgentName(name);
      if Offers(ctx.agents, local) then Dispatched(LocalAgent(ctx.Child(local), local, prompt, attachment))
      else NotFound("agent " + local + " not found")
  }

  /** Does the registry `defs` hold a definition called `name`? (`ToolSet::contains`, `AgentSet::contains`) */
  method Contains(defs: seq<FunctionDefinition>, name: string) returns (found: bool)
    ensures found <==> Offers(defs, name)
  {
    var i := 0;
    while i < |defs|
      invariant 0 <= i <= |defs|
      invariant forall k :: 0 <= k < i ==> defs[k].name != name
    {
      if defs[i].name == name {
        return true;
      }
      i := i + 1;
    }
    return false;
  }

  /** `tool_call`: route `name`, then run the dispatch; the reply is the
      collaborator's, or the "not found" error when nothing resolves. */
  method ToolCall(ctx: AgentCtx, env: Env, name: string, args: string) returns (r: Result<string, string>, sent: Option<Dispatch>)
    ensures sent == ToolRoute(ctx, name, args).Sent()
    ensures r == ToolRoute(ctx, name, args).ToolReply(env)
  {
    var engines := ctx.remoteEngines;
    var rest := StripPrefix("RT_", name);
    if rest.Some? {
      var i := 0;
      while i < |engines|
        invariant 0 <= i <= |engines|
        invariant forall j :: 0 <= j < i ==> !("RT_" + engines[j].0 <= name)
      {
        PrefixConcat("RT_", engines[i].0, name);
        var toolName := StripPrefix(engines[i].0, rest.value);
        if toolName.Some? {
          assert FirstRemote(engines, "RT_", name, i);
          assert toolName.value == name[3 + |engines[i].0|..];
          var d := RemoteToolCall(engines[i].1.endpoint, toolName.value, args);
          return env.callTool(d), Some(d);
        }
        i := i + 1;
      }
    }
    assert NoRemote(engines, "RT_", name) by {
      forall j | 0 <= j < |engines| {
        PrefixConcat("RT_", engines[j].0, name);
      }
    }
    var local := Contains(ctx.tools, name);
    if local {
      var d := LocalTool(ctx.ChildBase(name), name, args);
      return env.callTool(d), Some(d);
    }
    return Err("tool " + name + " not found"), None;
  }

  /** `agent_run`: route `name`, then run the dispatch; the reply is the
      collaborator's, or the "not found" error when nothing resolves. */
  method AgentRun(ctx: AgentCtx, env: Env, name: string, prompt: string, attachment: Option<Bytes>)
    returns (r: Result<AgentOutput, string>, sent: Option<Dispatch>)
    ensures sent == AgentRoute(ctx, name, prompt, attachment).Sent()
    ensures r == AgentRoute(ctx, name, prompt, attachment).AgentReply(env)
  {
    var engines := ctx.remoteEngines;
    var rest := StripPrefix("RA_", name);
    if rest.Some? {
      var i := 0;
      while i < |engines|
        invariant 0 <= i <= |engines|
        invariant forall j :: 0 <= j < i ==> !("RA_" + engines[j].0 <= name)
      {
        PrefixConcat("RA_", engines[i].0, name);
        var agentName := StripPrefix(engines[i].0, rest.value);
        if agentName.Some? {
          assert FirstRemote(engines, "RA_", name, i);
          assert agentName.value == name[3 + |engines[i].0|..];
          var d := RemoteAgentRun(engines[i].1.endpoint, agentName.value, prompt, attachment);
          return env.runAgent(d), Some(d);
        }
        i := i + 1;
      }
    }
    assert NoRemote(engines, "RA_", name) by {
      forall j | 0 <= j < |engines| {
        PrefixConcat("RA_", engines[j].0, name);
      }
    }
    var localName := StripPrefix("LA_", name).GetOr(name);
    var local := Contains(ctx.agents, localName);
    if local {
      var d := LocalAgent(ctx.Child(localName), localName, prompt, attachment);
      return env.runAgent(d), Some(d);
    }
    return Err("agent " + localName + " not found"), None;
  }
}

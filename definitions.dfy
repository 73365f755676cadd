/** The definition aggregator: the local and remote definitions advertised to
    the model, filtered by name and qualified with their routing prefix. */
module Definitions {
  import opened Wrappers
  import opened Types
  import opened Seqs
  import opened Context
  import opened Router

  /** `names` is absent, or lists the name of `d`. */
  predicate Selected(d: FunctionDefinition, names: Option<seq<string>>) {
    names.None? || d.name in names.value
  }

  /** A registry's `definitions(names)`: its definitions in registry order,
      only those listed in `names` when a list is given. */
  function RegistryDefinitions(registry: seq<FunctionDefinition>, names: Option<seq<string>>): (r: seq<FunctionDefinition>)
    ensures |r| <= |registry|
    ensures names.None? ==> r == registry
    ensures forall d :: d in r <==> d in registry && Selected(d, names)
  {
    var keep := (d: FunctionDefinition) => Selected(d, names);
    assert names.None? ==> Filter(registry, keep) == registry by {
      if names.None? {
        FilterKeepsAll(registry, keep);
      }
    }
    Filter(registry, keep)
  }

  /** `tool_definitions`: the local tool registry's definitions. */
  function ToolDefinitions(ctx: AgentCtx, names: Option<seq<string>>): (r: seq<FunctionDefinition>)
    ensures forall d :: d in r <==> d in ctx.tools && Selected(d, names)
    ensures names.None? ==> r == ctx.tools
  {
    RegistryDefinitions(ctx.tools, names)
  }

  /** Every definition of `defs`, in order, under the name `prefix + name`. */
  function Prefixed(defs: seq<FunctionDefinition>, prefix: string): (r: seq<FunctionDefinition>)
    ensures |r| == |defs|
    ensures forall i :: 0 <= i < |r| ==> r[i] == defs[i].WithPrefix(prefix)
  {
    seq(|defs|, i requires 0 <= i < |defs| => defs[i].WithPrefix(prefix))
  }

  /** `d` with `prefix` taken off its name. */
  function Unprefixed(d: FunctionDefinition, prefix: string): FunctionDefinition
    requires prefix <= d.name
  {
    d.(name := d.name[|prefix|..])
  }

  lemma PrefixedMembership(defs: seq<FunctionDefinition>, prefix: string, d: FunctionDefinition)
    ensures d in Prefixed(defs, prefix) <==> prefix <= d.name && Unprefixed(d, prefix) in defs
  {
    var r := Prefixed(defs, prefix);
    if d in r {
      var i :| 0 <= i < |r| && r[i] == d;
      assert d.name == prefix + defs[i].name;
      assert d.name[|prefix|..] == defs[i].name;
      assert Unprefixed(d, prefix) == defs[i];
    }
    if prefix <= d.name && Unprefixed(d, prefix) in defs {
      var e := Unprefixed(d, prefix);
      var i :| 0 <= i < |defs| && defs[i] == e;
      assert prefix + d.name[|prefix|..] == d.name;
      assert r[i] == d;
    }
  }

  lemma PrefixedAppend(a: seq<FunctionDefinition>, b: seq<FunctionDefinition>, prefix: string)
    ensures Prefixed(a + b, prefix) == Prefixed(a, prefix) + Prefixed(b, prefix)
  {
  }

  /** `agent_definitions`: the local agent registry's definitions; with
      `withPrefix`, each renamed `LA_` + name and otherwise unchanged. */
  function AgentDefinitions(ctx: AgentCtx, names: Option<seq<string>>, withPrefix: bool): (r: seq<FunctionDefinition>)
    ensures var res := RegistryDefinitions(ctx.agents, names);
      && |r| == |res|
      && (!withPrefix ==> r == res)
      && forall i :: 0 <= i < |r| ==> r[i] == if withPrefix then res[i].(name := "LA_" + res[i].name) else res[i]
  {
    var res := RegistryDefinitions(ctx.agents, names);
    if withPrefix then Prefixed(res, "LA_") else res
  }

  /** The scoped `filter_map` over one engine's definitions: those selected
      by `names`, in their original order, renamed `prefix + name`. */
  function Qualify(defs: seq<FunctionDefinition>, prefix: string, names: Option<seq<string>>): (r: seq<FunctionDefinition>)
    ensures |r| <= |defs|
    ensures names.None? ==> |r| == |defs| && forall i :: 0 <= i < |r| ==> r[i] == defs[i].WithPrefix(prefix)
  {
    Prefixed(RegistryDefinitions(defs, names), prefix)
  }

  /** What `Qualify` keeps: exactly the selected definitions, each under the prefixed name. */
  lemma QualifyMembership(defs: seq<FunctionDefinition>, prefix: string, names: Option<seq<string>>, d: FunctionDefinition)
    ensures d in Qualify(defs, prefix, names) <==>
      prefix <= d.name && Unprefixed(d, prefix) in defs && Selected(Unprefixed(d, prefix), names)
  {
    PrefixedMembership(RegistryDefinitions(defs, names), prefix, d);
  }

  /** Qualifying commutes with concatenation: the order of what is kept is the original order. */
  lemma QualifyAppend(a: seq<FunctionDefinition>, b: seq<FunctionDefinition>, prefix: string, names: Option<seq<string>>)
    ensures Qualify(a + b, prefix, names) == Qualify(a, prefix, names) + Qualify(b, prefix, names)
  {
    var keep := (d: FunctionDefinition) => Selected(d, names);
    FilterAppend(a, b, keep);
    PrefixedAppend(Filter(a, keep), Filter(b, keep), prefix);
  }

  /** Which of an engine's two definition lists is meant. */
  datatype Kind = ToolKind | AgentKind {

    /** The routing tag of the kind. */
    function Tag(): string {
      match this
      case ToolKind => "RT_"
      case AgentKind => "RA_"
    }
  }

  function Advertised(engine: EngineInformation, kind: Kind): seq<FunctionDefinition> {
    match kind
    case ToolKind => engine.toolDefinitions
    case AgentKind => engine.agentDefinitions
  }

  /** One directory entry's contribution: its definitions of `kind`, selected
      by `names`, under the prefix tag + key. */
  function EngineDefinitions(entry: (string, EngineInformation), kind: Kind, names: Option<seq<string>>): seq<FunctionDefinition> {
    Qualify(Advertised(entry.1, kind), kind.Tag() + entry.0, names)
  }

  /** The contributions of all `engines`, concatenated in directory order. */
  function AllEngineDefinitions(engines: seq<(string, EngineInformation)>, kind: Kind, names: Option<seq<string>>): seq<FunctionDefinition>
  {
    FlatMap(engines, (entry: (string, EngineInformation)) => EngineDefinitions(entry, kind, names))
  }

  /** The contributions of the first `i + 1` engines extend those of the first `i`. */
  lemma AllEngineDefinitionsSnoc(engines: seq<(string, EngineInformation)>, i: nat, kind: Kind,
                                 names: Option<seq<string>>)
    requires i < |engines|
    ensures AllEngineDefinitions(engines[..i + 1], kind, names) ==
            AllEngineDefinitions(engines[..i], kind, names) + EngineDefinitions(engines[i], kind, names)
  {
    assert engines[..i + 1][..i] == engines[..i] && engines[..i + 1][i] == engines[i];
  }

  /** The total number of definitions of `kind` the engines advertise. */
  function AdvertisedCount(engines: seq<(string, EngineInformation)>, kind: Kind): nat {
    if |engines| == 0 then 0
    else AdvertisedCount(engines[..|engines| - 1], kind) + |Advertised(engines[|engines| - 1].1, kind)|
  }

  /** The unscoped result holds exactly as many definitions as the engines
      advertise when no names are given, and never more. */
  lemma {:induction false} AllEngineDefinitionsLength(engines: seq<(string, EngineInformation)>, kind: Kind, names: Option<seq<string>>)
    ensures |AllEngineDefinitions(engines, kind, names)| <= AdvertisedCount(engines, kind)
    ensures names.None? ==> |AllEngineDefinitions(engines, kind, names)| == AdvertisedCount(engines, kind)
  {
    if |engines| > 0 {
      AllEngineDefinitionsLength(engines[..|engines| - 1], kind, names);
    }
  }

  /** A definition is in the unscoped result exactly when some engine contributes it. */
  lemma AllEngineDefinitionsMembership(engines: seq<(string, EngineInformation)>, kind: Kind, names: Option<seq<string>>, d: FunctionDefinition)
    ensures d in AllEngineDefinitions(engines, kind, names) <==>
      exists i :: 0 <= i < |engines| && d in EngineDefinitions(engines[i], kind, names)
  {
    FlatMapMembership(engines, (entry: (string, EngineInformation)) => EngineDefinitions(entry, kind, names), d);
  }

  /** The first engine, in key order, serving at `endpoint`, when one is given. */
  function ScopedEngine(engines: EngineMap, endpoint: Option<string>): (r: Option<nat>)
    ensures r.Some? ==> && endpoint.Some? && r.value < |engines|
                        && engines[r.value].1.endpoint == endpoint.value
                        && forall j :: 0 <= j < r.value ==> engines[j].1.endpoint != endpoint.value
    ensures r.None? ==> endpoint.None? || forall j :: 0 <= j < |engines| ==> engines[j].1.endpoint != endpoint.value
  {
    match endpoint
    case None => None
    case Some(e) => FirstIndex(engines, (entry: (string, EngineInformation)) => entry.1.endpoint == e)
  }

  /** The loop of the scoped branch: the first engine serving at `endpoint`. */
  method FindScopedEngine(engines: EngineMap, endpoint: Option<string>) returns (found: Option<nat>)
    ensures found == ScopedEngine(engines, endpoint)
  {
    if endpoint.Some? {
      var i := 0;
      while i < |engines|
        invariant 0 <= i <= |engines|
        invariant forall j :: 0 <= j < i ==> engines[j].1.endpoint != endpoint.value
      {
        if endpoint.value == engines[i].1.endpoint {
          return Some(i);
        }
        i := i + 1;
      }
    }
    return None;
  }

  /** The loop of the unscoped branch: every engine's contribution, extended in key order. */
  method CollectEngineDefinitions(engines: EngineMap, kind: Kind, names: Option<seq<string>>)
    returns (definitions: seq<FunctionDefinition>)
    ensures definitions == AllEngineDefinitions(engines, kind, names)
  {
    definitions := [];
    var i := 0;
    while i < |engines|
      invariant 0 <= i <= |engines|
      invariant definitions == AllEngineDefinitions(engines[..i], kind, names)
    {
      AllEngineDefinitionsSnoc(engines, i, kind, names);
      definitions := definitions + EngineDefinitions(engines[i], kind, names);
      i := i + 1;
    }
    assert engines[..|engines|] == engines;
  }

  /** `remote_tool_definitions` and `remote_agent_definitions` for `kind`:
      the first engine serving at `endpoint` only, if there is one, and
      otherwise all engines in key order. */
  method RemoteDefinitions(ctx: AgentCtx, kind: Kind, endpoint: Option<string>, names: Option<seq<string>>)
    returns (definitions: seq<FunctionDefinition>)
    ensures definitions == match ScopedEngine(ctx.remoteEngines, endpoint)
                           case Some(i) => EngineDefinitions(ctx.remoteEngines[i], kind, names)
                           case None => AllEngineDefinitions(ctx.remoteEngines, kind, names)
  {
    var scoped := FindScopedEngine(ctx.remoteEngines, endpoint);
    if scoped.Some? {
      return EngineDefinitions(ctx.remoteEngines[scoped.value], kind, names);
    }
    definitions := CollectEngineDefinitions(ctx.remoteEngines, kind, names);
  }

  /** `remote_tool_definitions`. */
  method RemoteToolDefinitions(ctx: AgentCtx, endpoint: Option<string>, names: Option<seq<string>>)
    returns (definitions: seq<FunctionDefinition>)
    ensures definitions == match ScopedEngine(ctx.remoteEngines, endpoint)
                           case Some(i) => Qualify(ctx.remoteEngines[i].1.toolDefinitions, "RT_" + ctx.remoteEngines[i].0, names)
                           case None => AllEngineDefinitions(ctx.remoteEngines, ToolKind, names)
  {
    definitions := RemoteDefinitions(ctx, ToolKind, endpoint, names);
  }

  /** `remote_agent_definitions`. */
  method RemoteAgentDefinitions(ctx: AgentCtx, endpoint: Option<string>, names: Option<seq<string>>)
    returns (definitions: seq<FunctionDefinition>)
    ensures definitions == match ScopedEngine(ctx.remoteEngines, endpoint)
                           case Some(i) => Qualify(ctx.remoteEngines[i].1.agentDefinitions, "RA_" + ctx.remoteEngines[i].0, names)
                           case None => AllEngineDefinitions(ctx.remoteEngines, AgentKind, names)
  {
    definitions := RemoteDefinitions(ctx, AgentKind, endpoint, names);
  }

  // ---------------------------------------------------------------------
  // Advertised names route back to what they advertise.

  /** No directory key is a prefix of another. */
  predicate PrefixFree(engines: EngineMap) {
    forall i, j :: 0 <= i < |engines| && 0 <= j < |engines| && i != j ==> !(engines[i].0 <= engines[j].0)
  }

  /** With prefix-free keys, the name tag + key_i + rest is routed to engine i. */
  lemma OwnKeyMatchesFirst(engines: EngineMap, tag: string, i: nat, rest: string)
    requires PrefixFree(engines) && i < |engines|
    ensures FirstRemote(engines, tag, tag + engines[i].0 + rest, i)
  {
    var name := tag + engines[i].0 + rest;
    assert name == (tag + engines[i].0) + rest;
    assert name[|tag|..] == engines[i].0 + rest;
    PrefixConcat(tag, engines[i].0, name);
    forall j | 0 <= j < i
      ensures !(tag + engines[j].0 <= name)
    {
      PrefixConcat(tag, engines[j].0, name);
      if tag + engines[j].0 <= name {
        PrefixesComparable(engines[j].0, engines[i].0, engines[i].0 + rest);
      }
    }
  }

  /** With prefix-free keys, a remote tool definition advertised by engine i
      routes back to engine i's endpoint, with the tool's own name. */
  lemma RemoteToolDefinitionRoutesBack(ctx: AgentCtx, i: nat, q: FunctionDefinition, names: Option<seq<string>>, args: string)
    requires PrefixFree(ctx.remoteEngines) && i < |ctx.remoteEngines|
    requires q in EngineDefinitions(ctx.remoteEngines[i], ToolKind, names)
    ensures var prefix := "RT_" + ctx.remoteEngines[i].0;
      && prefix <= q.name
      && Unprefixed(q, prefix) in ctx.remoteEngines[i].1.toolDefinitions
      && ToolRoute(ctx, q.name, args) == Dispatched(RemoteToolCall(ctx.remoteEngines[i].1.endpoint, q.name[|prefix|..], args))
  {
    var key := ctx.remoteEngines[i].0;
    QualifyMembership(ctx.remoteEngines[i].1.toolDefinitions, "RT_" + key, names, q);
    var original := q.name[|"RT_" + key|..];
    assert q.name == "RT_" + key + original;
    OwnKeyMatchesFirst(ctx.remoteEngines, "RT_", i, original);
  }

  /** With prefix-free keys, a remote agent definition advertised by engine i
      routes back to engine i's endpoint, with the agent's own name. */
  lemma RemoteAgentDefinitionRoutesBack(ctx: AgentCtx, i: nat, q: FunctionDefinition, names: Option<seq<string>>,
                                        prompt: string, attachment: Option<Bytes>)
    requires PrefixFree(ctx.remoteEngines) && i < |ctx.remoteEngines|
    requires q in EngineDefinitions(ctx.remoteEngines[i], AgentKind, names)
    ensures var prefix := "RA_" + ctx.remoteEngines[i].0;
      && prefix <= q.name
      && Unprefixed(q, prefix) in ctx.remoteEngines[i].1.agentDefinitions
      && AgentRoute(ctx, q.name, prompt, attachment) ==
         Dispatched(RemoteAgentRun(ctx.remoteEngines[i].1.endpoint, q.name[|prefix|..], prompt, attachment))
  {
    var key := ctx.remoteEngines[i].0;
    QualifyMembership(ctx.remoteEngines[i].1.agentDefinitions, "RA_" + key, names, q);
    var original := q.name[|"RA_" + key|..];
    assert q.name == "RA_" + key + original;
    OwnKeyMatchesFirst(ctx.remoteEngines, "RA_", i, original);
  }

  /** Every definition in the aggregated remote tool list routes back to
      the engine that advertised it. */
  lemma RemoteToolDefinitionsRouteBack(ctx: AgentCtx, names: Option<seq<string>>, q: FunctionDefinition, args: string)
    requires PrefixFree(ctx.remoteEngines)
    requires q in AllEngineDefinitions(ctx.remoteEngines, ToolKind, names)
    ensures exists i :: (0 <= i < |ctx.remoteEngines| && q in EngineDefinitions(ctx.remoteEngines[i], ToolKind, names) &&
      "RT_" + ctx.remoteEngines[i].0 <= q.name &&
      ToolRoute(ctx, q.name, args) ==
      Dispatched(RemoteToolCall(ctx.remoteEngines[i].1.endpoint, q.name[|"RT_" + ctx.remoteEngines[i].0|..], args)))
  {
    AllEngineDefinitionsMembership(ctx.remoteEngines, ToolKind, names, q);
    var i :| 0 <= i < |ctx.remoteEngines| && q in EngineDefinitions(ctx.remoteEngines[i], ToolKind, names);
    RemoteToolDefinitionRoutesBack(ctx, i, q, names, args);
  }

  /** An `LA_` definition routes back to the local agent it names. */
  lemma LocalAgentDefinitionRoutesBack(ctx: AgentCtx, names: Option<seq<string>>, k: nat, prompt: string, attachment: Option<Bytes>)
    requires k < |AgentDefinitions(ctx, names, true)|
    ensures var original := RegistryDefinitions(ctx.agents, names)[k].name;
      AgentRoute(ctx, AgentDefinitions(ctx, names, true)[k].name, prompt, attachment) ==
      Dispatched(LocalAgent(ctx.Child(original), original, prompt, attachment))
  {
    var res := RegistryDefinitions(ctx.agents, names);
    var original := res[k].name;
    var name := AgentDefinitions(ctx, names, true)[k].name;
    assert name == "LA_" + original;
    assert res[k] in ctx.agents;
    assert NoRemote(ctx.remoteEngines, "RA_", name) by {
      forall j | 0 <= j < |ctx.remoteEngines|
        ensures !("RA_" + ctx.remoteEngines[j].0 <= name)
      {
        assert ("RA_" + ctx.remoteEngines[j].0)[0] == 'R' != name[0];
      }
    }
    assert LocalAgentName(name) == original;
  }

  /** A local tool definition routes back to that local tool, unless an
      engine key claims its name (local names starting `RT_` can be shadowed). */
  lemma LocalToolDefinitionRoutesBack(ctx: AgentCtx, names: Option<seq<string>>, d: FunctionDefinition, args: string)
    requires d in ToolDefinitions(ctx, names)
    requires NoRemote(ctx.remoteEngines, "RT_", d.name)
    ensures ToolRoute(ctx, d.name, args) == Dispatched(LocalTool(ctx.ChildBase(d.name), d.name, args))
  {
  }

  /** The tool `lookup` of the example below. */
  const Lookup := FunctionDefinition("lookup", "", "{}", None)

  /** A directory whose keys are not prefix-free: `x` and `x1`, where only
      engine `x1` advertises a tool. */
  function ShadowingDirectory(): EngineMap {
    assert StrLess("x", "x1") by {
      assert "x1"[1..] == "1";
      assert "x"[1..] == "";
    }
    [("x", EngineInformation([], "x", "https://x/rpc", [], [])),
     ("x1", EngineInformation([], "x1", "https://x1/rpc", [], [Lookup]))]
  }

  /** The directory advertises only `x1`'s tool, as `RT_x1lookup`. */
  lemma ShadowingDirectoryAdvertises()
    ensures AllEngineDefinitions(ShadowingDirectory(), ToolKind, None) == [Lookup.(name := "RT_x1lookup")]
  {
    var engines := ShadowingDirectory();
    var contribution := (entry: (string, EngineInformation)) => EngineDefinitions(entry, ToolKind, None);
    assert engines[..1][..0] == [];
    assert RegistryDefinitions([], None) == [];
    assert RegistryDefinitions([Lookup], None) == [Lookup];
    assert EngineDefinitions(engines[0], ToolKind, None) == [];
    assert FlatMap(engines[..1], contribution) == FlatMap(engines[..1][..0], contribution) + contribution(engines[0]);
    assert AllEngineDefinitions(engines[..1], ToolKind, None) == [];
    assert ToolKind.Tag() + "x1" == "RT_x1";
    assert EngineDefinitions(engines[1], ToolKind, None) == [Lookup.WithPrefix("RT_x1")];
    assert Lookup.WithPrefix("RT_x1") == Lookup.(name := "RT_x1lookup");
  }

  /** The router takes the first key in key order, not the longest: in the
      directory above, the name advertised for engine `x1`'s tool `lookup`
      is routed to engine `x` as its tool `1lookup`. */
  lemma FirstKeyWinsOverLongest(args: string)
    ensures var ctx := AgentCtx(BaseCtx([], [], None, []), Model("m"), [], [], ShadowingDirectory());
      && AllEngineDefinitions(ctx.remoteEngines, ToolKind, None) == [Lookup.(name := "RT_x1lookup")]
      && ToolRoute(ctx, "RT_x1lookup", args) == Dispatched(RemoteToolCall("https://x/rpc", "1lookup", args))
  {
    ShadowingDirectoryAdvertises();
    var ctx := AgentCtx(BaseCtx([], [], None, []), Model("m"), [], [], ShadowingDirectory());
    assert "RT_" + "x" <= "RT_x1lookup";
    assert FirstRemote(ctx.remoteEngines, "RT_", "RT_x1lookup", 0);
    assert "RT_x1lookup"[3 + 1..] == "1lookup";
  }
}

# Agent execution context of the Anda engine, in Dafny

This project models `AgentCtx`, the per-request execution context of the Anda
agent engine (`anda_engine/src/context/agent.rs`), and proves properties of the
model. The model covers four parts of the context.

- **Name router** (`tool_call`, `agent_run`, `remote_tool_call`, `remote_agent_run`).
  A call name starting `RT_` or `RA_` goes to the first remote engine, in the
  ascending key order of the engine directory, whose key follows the tag. The
  engine receives a signed RPC. Any other name is looked up in the local tool
  or agent registry. For agents, a leading `LA_` is stripped before the local
  lookup. If nothing resolves, the call fails with a "not found" error.
- **Definition aggregator** (`tool_definitions`, `agent_definitions`,
  `remote_tool_definitions`, `remote_agent_definitions`). These build the
  definitions advertised to the model:
  - registry definitions, filtered by an optional name list;
  - local agents optionally renamed `LA_` + name;
  - remote definitions renamed `RT_`/`RA_` + key + name, either from the first
    engine serving at a given endpoint or from all engines in key order.
- **Completion loop** (`completion`). It calls the model and runs every
  requested tool or agent call that is still offered. A definition is
  withdrawn as soon as a call with its name is reached while it is still
  offered, even when that name is neither a tool nor an agent and the call is
  skipped. The results go back to the model as tool-role
  messages. The loop repeats until a turn produces no such message, and it
  returns early on the first failing call.
- **Child contexts** (`child`, `child_base`, `child_with`, `child_base_with`).
  Each extends the context path with `A:` + agent name or `T:` + tool name,
  optionally with a new caller and user.

Files and modules:

- `wrappers.dfy` (`Wrappers`): `Option` and `Result`.
- `types.dfy` (`Types`): definitions, usage, tool calls, messages, requests and
  outputs.
- `seqs.dfy` (`Seqs`): filtering, first-match search and concatenation of parts.
- `context.dfy` (`Context`): the context, the engine directory as a key-ordered
  sequence, child derivation, and the collaborators as the oracle record `Env`.
- `router.dfy` (`Router`):
  - routing specification functions `ToolRoute` and `AgentRoute`;
  - imperative `ToolCall` and `AgentRun`, proved equal to them.
- `definitions.dfy` (`Definitions`):
  - the aggregator, with its engine loops as methods proved against
    recursive specification functions;
  - lemmas showing that every advertised name routes back to what it
    advertises.
- `completion.dfy` (`Completion`):
  - the loop as the specification functions `StepCall`, `ScanFrom`, `Conclude`,
    `Iterate` and `Run`;
  - the imperative methods `RunTool`, `RunAgent`, `ScanCalls` and `Complete`,
    proved equal to them;
  - a trace of `Event`s that records every model call and every attempted
    tool or agent call.
- `completion_facts.dfy` (`CompletionFacts`): what the loop guarantees, proved
  over that trace.

The collaborators are parameters, as total functions in `Env`: the model, the
tool and agent runners, the signed-RPC transport, and the JSON parse of an
agent call's arguments. A call the core hands to one of them is a `Dispatch`
value. The signed RPC is `SignedRpc(endpoint, method, args)`. The local calls
carry the child context they run in.

Four behaviours of the code that the model keeps, and that a reader might
not expect:

- Remote routing takes the **first** key in key order that follows the tag
  (agent.rs:326-333). Because the directory is a `BTreeMap` iterated in
  ascending key order, that key is a prefix of every other key that follows
  the tag, so it is the shortest such key, not the longest
  (`Router.FirstRemoteIsShortest`). `Definitions.FirstKeyWinsOverLongest`
  shows the consequence. With keys `x` and `x1`, the name advertised for
  engine `x1`'s tool `lookup` (`RT_x1lookup`) reaches engine `x` as its tool
  `1lookup`. `Definitions.RemoteToolDefinitionRoutesBack` shows that the round
  trip holds when no key is a prefix of another.
- An `RT_` name that matches no engine is still looked up, in full, in the
  local tool registry (agent.rs:336). An `RA_` name that matches no engine is
  also looked up locally, after `LA_` stripping, which leaves it unchanged
  (agent.rs:386).
- When a sub-agent reports a failed reason, the completion returns the
  model's output with the model's own usage (agent.rs:480-483). The
  sub-agent's usage is added to the running total, but that total is not
  assigned to the output.
- The calls returned by a normal return are all calls of all turns, whether
  or not they were run (agent.rs:504, 507-512).

## Model

| member | source | states |
|---|---|---|
| Types.FunctionDefinition.WithPrefix | anda_engine/src/context/agent.rs:193 | the renamed definition is called prefix + name and is otherwise the same definition |
| Types.Usage.Add | anda_engine/src/context/agent.rs:443 | accumulating usage adds input tokens, output tokens and requests componentwise |
| Context.AgentCtx.Child | anda_engine/src/context/agent.rs:97-105 | the child's path is the parent's path plus `A:` + agent name; id, caller and user are kept; model, tools, agents and remote engines are shared unchanged |
| Context.AgentCtx.ChildBase | anda_engine/src/context/agent.rs:111-113 | the tool's base context has the parent's path plus `T:` + tool name, with id, caller and user kept |
| Context.AgentCtx.ChildWith | anda_engine/src/context/agent.rs:121-136 | as Child, but the caller and user are the given ones; the registries and model are shared unchanged |
| Context.AgentCtx.ChildBaseWith | anda_engine/src/context/agent.rs:145-153 | as ChildBase, but the caller and user are the given ones |
| Context.ChildLabelsIdentifyCall | anda_engine/src/context/agent.rs:97-153 | an agent child's path never equals a tool child's path, and the child's path determines the agent or tool name |
| Router.StripPrefix | anda_engine/src/context/agent.rs:326 | there is a rest exactly when the name starts with the prefix, and then the name is prefix + rest |
| Router.RemoteMatch | anda_engine/src/context/agent.rs:326-333 | the engine it picks is the first in key order whose key follows the tag at the start of the name; it picks none only if no engine's key does |
| Router.FirstRemoteIsShortest | anda_engine/src/context/agent.rs:326-333 | in the ascending key order of the directory, the key of the engine picked is a prefix of, and so no longer than, every other key that follows the tag in the name |
| Router.RemoteToolCall | anda_engine/src/context/agent.rs:350-358 | a signed RPC to the engine's endpoint with method `tool_call` and the arguments (tool name, args) |
| Router.RemoteAgentRun | anda_engine/src/context/agent.rs:402-415 | a signed RPC to the endpoint with method `agent_run` and the arguments (agent name, prompt, attachment) |
| Router.ToolRoute | anda_engine/src/context/agent.rs:324-342 | for the first matching engine, the tool_call RPC with the name minus `RT_` and key; with no matching engine, the local tool in a `T:` child if the registry holds the full name; otherwise "tool name not found" |
| Router.LocalAgentName | anda_engine/src/context/agent.rs:386 | a leading `LA_` is removed; any other name is kept |
| Router.AgentRoute | anda_engine/src/context/agent.rs:369-393 | for the first matching engine, the agent_run RPC with the name minus `RA_` and key; else the local agent under the `LA_`-stripped name in an `A:` child if registered; otherwise "agent stripped-name not found" |
| Router.Contains | anda_engine/src/context/agent.rs:336 | true exactly when the registry holds a definition with that name |
| Router.ToolCall | anda_engine/src/context/agent.rs:324-342 | the loop hands over exactly the dispatch ToolRoute names and returns the runner's reply, or the not-found error with nothing dispatched |
| Router.AgentRun | anda_engine/src/context/agent.rs:369-393 | the loop hands over exactly the dispatch AgentRoute names and returns the runner's reply, or the not-found error with nothing dispatched |
| Definitions.RegistryDefinitions | anda_engine/src/context/agent.rs:166-168 | never more definitions than the registry holds; everything when no names are given; membership is exactly "in the registry and selected by the names" |
| Definitions.ToolDefinitions | anda_engine/src/context/agent.rs:166-168 | the local tool definitions, filtered by the name list when given, all of them in order otherwise |
| Definitions.Prefixed | anda_engine/src/context/agent.rs:248-253 | same length, and each position holds the definition at that position renamed prefix + name |
| Definitions.PrefixedMembership | anda_engine/src/context/agent.rs:248-253 | a definition is in the renamed list exactly when its name starts with the prefix and the definition with the prefix removed is in the original list |
| Definitions.AgentDefinitions | anda_engine/src/context/agent.rs:238-258 | with the prefix flag: the same number of definitions in the same order, each renamed `LA_` + name and otherwise unchanged; without it: exactly the registry result |
| Definitions.Qualify | anda_engine/src/context/agent.rs:187-201 | never more definitions than the engine advertises; with no names, all of them in order, each renamed tag + key + name |
| Definitions.QualifyMembership | anda_engine/src/context/agent.rs:187-201 | a definition is in an engine's qualified list exactly when it is an advertised definition selected by the names and renamed with the prefix |
| Definitions.QualifyAppend | anda_engine/src/context/agent.rs:212-225 | filtering and renaming commute with concatenation, so the original order is kept |
| Definitions.AllEngineDefinitionsLength | anda_engine/src/context/agent.rs:206-227 | the unscoped result has exactly the reserved capacity (the sum of the engines' definition counts) when no names are given, and never more |
| Definitions.AllEngineDefinitionsMembership | anda_engine/src/context/agent.rs:212-225 | a definition is in the unscoped result exactly when some engine contributes it |
| Definitions.ScopedEngine | anda_engine/src/context/agent.rs:183-204 | the engine chosen is the first in key order whose endpoint equals the given one; none is chosen only if no endpoint was given or no engine serves there |
| Definitions.FindScopedEngine | anda_engine/src/context/agent.rs:183-204 | the endpoint loop finds exactly the engine ScopedEngine describes |
| Definitions.CollectEngineDefinitions | anda_engine/src/context/agent.rs:206-227 | the extend loop builds the concatenation of every engine's contribution, in key order |
| Definitions.RemoteDefinitions | anda_engine/src/context/agent.rs:178-228 | only the scoped engine's qualified definitions when an engine serves at the endpoint, and otherwise every engine's, in key order |
| Definitions.RemoteToolDefinitions | anda_engine/src/context/agent.rs:178-228 | the scoped engine's tool definitions filtered and prefixed `RT_` + key, or the unscoped concatenation over all engines |
| Definitions.RemoteAgentDefinitions | anda_engine/src/context/agent.rs:264-314 | the scoped engine's agent definitions filtered and prefixed `RA_` + key, or the unscoped concatenation over all engines |
| Definitions.OwnKeyMatchesFirst | anda_engine/src/context/agent.rs:326-333 | when no key is a prefix of another, tag + key + rest is routed to that key's engine |
| Definitions.RemoteToolDefinitionRoutesBack | anda_engine/src/context/agent.rs:326-333 | with prefix-free keys, a definition advertised for one engine's tool routes back to that engine's endpoint with the tool's own name |
| Definitions.RemoteAgentDefinitionRoutesBack | anda_engine/src/context/agent.rs:376-383 | with prefix-free keys, a definition advertised for one engine's agent routes back to that engine's endpoint with the agent's own name |
| Definitions.RemoteToolDefinitionsRouteBack | anda_engine/src/context/agent.rs:212-225 | with prefix-free keys, every definition in the unscoped remote tool list is routed to the engine that advertised it, with the remainder of its name |
| Definitions.LocalAgentDefinitionRoutesBack | anda_engine/src/context/agent.rs:386-390 | an `LA_` definition advertised for a local agent routes to that agent, under its own name and in its `A:` child |
| Definitions.LocalToolDefinitionRoutesBack | anda_engine/src/context/agent.rs:336-339 | a local tool definition routes to that local tool in its `T:` child unless an engine key claims the name |
| Definitions.FirstKeyWinsOverLongest | anda_engine/src/context/agent.rs:326-333 | with keys `x` and `x1`, the name advertised for `x1`'s tool reaches engine `x` under a different tool name |
| Definitions.ShadowingDirectoryAdvertises | anda_engine/src/context/agent.rs:212-225 | the example directory with keys `x` and `x1` advertises only `x1`'s tool, under the name `RT_x1lookup` |
| Completion.Withdraw | anda_engine/src/context/agent.rs:454 | no definition with the name remains, and every other definition is kept |
| Completion.StepCall | anda_engine/src/context/agent.rs:447-501 | a call whose name is no longer offered changes nothing; an offered name is withdrawn before any dispatch; an offered tool name is run through the tool router, recording that dispatch and reply, and the scan goes on exactly when the reply is `Ok`; an offered agent name whose arguments do not parse aborts with `Err` of the parse error, and otherwise its prompt is run through the agent router, the scan going on exactly when the sub-agent succeeds without a failed reason; a name of neither class is only withdrawn; a successful attempt stores the reply (the tool's output, or the sub-agent's content) as that call's result and appends exactly the tool-role message carrying it; a step that attempts nothing leaves the calls and messages unchanged; the later calls are untouched |
| Completion.RunTool | anda_engine/src/context/agent.rs:455-472 | the tool branch dispatches through tool_call and ends exactly as ToolStep specifies |
| Completion.RunAgent | anda_engine/src/context/agent.rs:473-499 | the agent branch parses the arguments, dispatches through agent_run and ends exactly as AgentStep specifies |
| Completion.ScanCalls | anda_engine/src/context/agent.rs:446-505 | the loop over one reply's calls ends in exactly the state or early return that ScanFrom specifies |
| Completion.Complete | anda_engine/src/context/agent.rs:438-523 | the completion returns exactly what Run specifies, with the trace of every model call and every attempted call |
| CompletionFacts.AttemptStops | anda_engine/src/context/agent.rs:467-497 | a failing attempt returns the model output with the failure's reason and the reply's calls, and the accumulated usage except after a sub-agent's own failure |
| CompletionFacts.AttemptContinues | anda_engine/src/context/agent.rs:457-492 | the state after a successful attempt (the call's result filled in, exactly its tool-role message appended) keeps the scan invariant, including that every call holds the model's own result or the content of the tool-role message that answers it |
| CompletionFacts.ToolStepKeeps | anda_engine/src/context/agent.rs:455-472 | a tool call keeps the loop invariant, or stops, always with `Ok`: after a failed dispatch, with the model output carrying the error as failed reason, the reply's calls and the accumulated usage |
| CompletionFacts.AgentStepKeeps | anda_engine/src/context/agent.rs:473-499 | an agent call keeps the loop invariant; or stops with `Ok` and the early-return output after a failed dispatch or a sub-agent's reported failure; or, when its arguments do not parse, stops with `Err` of exactly that parse error and the trace unchanged |
| CompletionFacts.StepKeeps | anda_engine/src/context/agent.rs:447-501 | one call of the scan keeps the invariant: usage is the trace's sum, replies are the trace's tool-role messages, withdrawn names are never offered again, and each call holds the model's own result or the content of the message answering it |
| CompletionFacts.ScanKeeps | anda_engine/src/context/agent.rs:446-505 | the scan of a reply's calls keeps that invariant to its end, or stops: with `Ok` and the early-return output (the only outcome after a failing attempt), or with `Err` of the parse error of an offered, not yet attempted agent call of that reply, when no attempt has failed |
| CompletionFacts.GatherKeeps | anda_engine/src/context/agent.rs:504 | after appending a reply's calls, the gathered calls are, up to their results, every call the model has asked for |
| CompletionFacts.ConcludeKeeps | anda_engine/src/context/agent.rs:507-521 | the end of a turn returns exactly when the turn's calls produced no tool-role message, and then returns `Ok` with the last model output, every gathered call (each holding the model's own result or the content of a tool-role message answering it) and the summed usage; otherwise it continues in a state that keeps the loop invariant |
| CompletionFacts.IterateKeeps | anda_engine/src/context/agent.rs:442-521 | a turn either finishes with a well-formed result or continues in a state where usage, the offered set and the gathered calls still match the trace, and every gathered call is answered by the trace's messages |
| CompletionFacts.IterateAnswers | anda_engine/src/context/agent.rs:458-514 | a turn that returns without a failing call returns calls that each hold the model's own result or the content of a tool-role message of the trace answering it; a turn that continues keeps the loop invariant, including that every gathered call is so answered |
| CompletionFacts.RunAnswers | anda_engine/src/context/agent.rs:441-522 | a run that returns `Ok` without ending on a failing call returns calls that each hold the model's own result or the content of a tool-role message of its whole trace answering it |
| CompletionFacts.RunKeeps | anda_engine/src/context/agent.rs:441-522 | every run from a state that matches its trace settles with distinct attempted names, failures only at the end and then an `Ok` result, a well-formed output, and an `Err` only from a failed model call or an agent call's unparsable arguments |
| CompletionFacts.InvokedOnce | anda_engine/src/context/agent.rs:447-454 | during a completion each name is attempted at most once, and only names offered in the initial request are attempted |
| CompletionFacts.FailureEndsCompletion | anda_engine/src/context/agent.rs:467-497 | a failing tool or agent call is always the last event of the completion, and the completion then returns `Ok` |
| CompletionFacts.ReturnedOutput | anda_engine/src/context/agent.rs:466-514 | an early return is the model output with the failure's reason, the current reply's calls (each with the model's own result or the content of the tool-role message answering it), and the accumulated usage unless a sub-agent failed; a normal return happens only after a turn whose calls produced no tool-role message, and is the last model output with every turn's calls (None if none), each holding the model's own result or the content of a tool-role message of the completion that answers it, and the summed usage of all model calls and sub-agents |
| CompletionFacts.ErrorCauses | anda_engine/src/context/agent.rs:442-476 | a completion returns `Err` only with the error of the failed model call that ends its trace, or with the parse error of an offered, not yet attempted agent call of the last model reply |
| CompletionFacts.WithdrawShortens | anda_engine/src/context/agent.rs:448-454 | withdrawing an offered name removes at least one definition |
| CompletionFacts.StepShrinks | anda_engine/src/context/agent.rs:447-501 | a call adds at most one tool-role message, and only when it withdraws a definition |
| CompletionFacts.StepAttempts | anda_engine/src/context/agent.rs:447-501 | a call that does not stop the scan is attempted exactly when its name is still offered and names a tool or an agent, and leaves its name withdrawn |
| CompletionFacts.ScanAttempts | anda_engine/src/context/agent.rs:446-505 | a scan that runs to its end attempts, in order, exactly the calls `Attempts` selects |
| CompletionFacts.TurnAttempts | anda_engine/src/context/agent.rs:442-521 | unless the turn ends early on a failing attempt or unparsable agent arguments, the calls it attempts after its model call are, in order, the reply's calls whose names are still offered when reached and name a tool or an agent |
| CompletionFacts.ScanShrinks | anda_engine/src/context/agent.rs:446-505 | over a reply's calls, the offered definitions shrink by at least as much as tool-role messages are added |
| CompletionFacts.TurnShrinks | anda_engine/src/context/agent.rs:442-521 | a turn that continues offers strictly fewer definitions to the next turn |
| CompletionFacts.RunTerminates | anda_engine/src/context/agent.rs:441-522 | from any state, a run given more turns than definitions offered returns |
| CompletionFacts.Terminates | anda_engine/src/context/agent.rs:438-523 | the loop always ends: a completion given more turns than its request offers definitions returns, so `Exhausted` needs fuel at most the number of offered definitions |
| CompletionFacts.ContinuationRequest | anda_engine/src/context/agent.rs:517-521 | a following turn's request has no system prompt, no documents and an empty prompt; its history is the model's full history then at least one tool-role message from this turn; its tools are a subset of the previous ones |
| CompletionFacts.RepliesAnswerCalls | anda_engine/src/context/agent.rs:458-491 | every message carried into the next turn is a tool-role message without a name, answering by its id a call attempted after the last model call |
| CompletionFacts.FuelMonotone | anda_engine/src/context/agent.rs:441-522 | once the loop has returned, more iterations change neither the result nor the trace |
| CompletionFacts.CompleteWithoutCalls | anda_engine/src/context/agent.rs:442-514 | a first model reply without tool calls is returned as it is, after a single model call |

## Left out

- Completion.Complete: the source's `loop` has no explicit bound, and the model is given a fuel bound. A run still looping when the fuel is spent ends as `Exhausted`. `CompletionFacts.Terminates` shows that this happens only with fuel at most the number of definitions the request offers. `CompletionFacts.FuelMonotone` shows that more fuel never changes a result already reached.
- CompletionFacts.ReturnedOutput: the returned calls are compared with the model's calls by id, name and arguments, and each is stated to hold the model's own result or the content of a tool-role message answering it (for an early return, one of the current turn). Which calls were run, and so hold a reply rather than the model's own result, is stated per step by `Completion.StepCall` and per turn by `CompletionFacts.TurnAttempts`, not in the returned output.
- Types.FunctionDefinition.WithPrefix: `name_with_prefix` is defined outside this file; the model takes it to prepend the prefix to the name and change nothing else.
- Definitions.RegistryDefinitions: `ToolSet::definitions` and `AgentSet::definitions` are defined outside this file. The model takes them to keep the registry's definitions in registry order, filtered by name when names are given. Registries are sequences of definitions.
- Types.Usage.Add: token counts are unbounded naturals; 64-bit overflow is not modelled.
- Context.AgentCtx.Child, ChildBase, ChildWith, ChildBaseWith: `BaseCtx::child` and `child_with` are defined outside this file. They are modelled as infallible path extensions, so their error path, depth limits, cancellation token, elapsed time and principal bookkeeping are not modelled.
- Router.ToolCall, Router.AgentRun: executing a local tool or agent, and the signed RPC transport (`https_signed_rpc`, agent.rs:863-873), are the oracles `Env.callTool` and `Env.runAgent`; their replies, including transport and decode errors, are arbitrary.
- Completion.Complete: the model invocation is the oracle `Env.complete`. Errors (`BoxError`) are their message strings. The JSON parse of an agent call's arguments is the oracle `Env.parsePrompt`. JSON message values are the `Message` datatype. Awaits run in sequence, as in the source; concurrency and cancellation are not modelled.
- `AgentCtx::new` (agent.rs:77-91) is the datatype constructor `AgentCtx`.
- The embedding, key and signature, object store, cache, canister and HTTP methods and the state getters (agent.rs:526-874) are one-line forwards to the base context or the model, with no logic of their own.
- The JSON-in-CBOR test (agent.rs:882-897) exercises serialisation libraries only.

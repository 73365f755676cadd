/** The completion loop: call the model, run every tool or agent call it asks
    for that is still offered, feed the results back, and repeat until an
    iteration produces no tool-role message. */
module Completion {
  import opened Wrappers
  import opened Types
  import opened Seqs
  import opened Context
  import opened Router

  /** One interaction of the loop with a collaborator. */
  datatype Event =
    | ModelCalled(request: CompletionRequest, reply: Result<AgentOutput, string>)
    | ToolInvoked(call: ToolCall, sent: Option<Dispatch>, toolReply: Result<string, string>)
    | AgentInvoked(call: ToolCall, sent: Option<Dispatch>, agentReply: Result<AgentOutput, string>)
  {
    /** A tool or agent call was attempted. */
    predicate Invocation() {
      ToolInvoked? || AgentInvoked?
    }

    /** The attempt failed: the dispatch returned an error, or the sub-agent reported a failure. */
    predicate Failing() {
      match this
      case ModelCalled(_, _) => false
      case ToolInvoked(_, _, reply) => reply.Err?
      case AgentInvoked(_, _, reply) => reply.Err? || reply.value.failedReason.Some?
    }

    /** The reason a failing attempt reports. */
    function FailureReason(): Option<string>
      requires Failing()
    {
      match this
      case ToolInvoked(_, _, reply) => Some(reply.error)
      case AgentInvoked(_, _, reply) => if reply.Err? then Some(reply.error) else reply.value.failedReason
    }

    /** The usage the event reports: a model reply's, or a sub-agent's. */
    function Spent(): Usage {
      match this
      case ModelCalled(_, Ok(out)) => out.usage
      case AgentInvoked(_, _, Ok(res)) => res.usage
      case _ => NoUsage
    }

    /** The tool-role message a successful attempt contributes to the next turn. */
    function Reply(): seq<Message> {
      match this
      case ToolInvoked(call, _, Ok(result)) => [ToolMessage(call.id, result)]
      case AgentInvoked(call, _, Ok(res)) => if res.failedReason.None? then [ToolMessage(call.id, res.content)] else []
      case _ => []
    }

    /** The tool calls a model reply asks for. */
    function Emitted(): seq<ToolCall> {
      match this
      case ModelCalled(_, Ok(out)) => out.toolCalls.GetOr([])
      case _ => []
    }
  }

  /** The sum of all usages reported in `trace`. */
  function TraceUsage(trace: seq<Event>): Usage {
    if |trace| == 0 then NoUsage
    else TraceUsage(trace[..|trace| - 1]).Add(trace[|trace| - 1].Spent())
  }

  /** The tool-role messages of the attempts since the last model call, in order. */
  function RepliesSinceModel(trace: seq<Event>): seq<Message> {
    if |trace| == 0 || trace[|trace| - 1].ModelCalled? then []
    else RepliesSinceModel(trace[..|trace| - 1]) + trace[|trace| - 1].Reply()
  }

  /** All tool calls the model has asked for in `trace`, in order. */
  function EmittedCalls(trace: seq<Event>): seq<ToolCall> {
    if |trace| == 0 then []
    else EmittedCalls(trace[..|trace| - 1]) + trace[|trace| - 1].Emitted()
  }

  /** The output of the last model call in `trace`, if it succeeded. */
  function LastModelOutput(trace: seq<Event>): Option<AgentOutput> {
    if |trace| == 0 then None
    else match trace[|trace| - 1]
      case ModelCalled(_, reply) => if reply.Ok? then Some(reply.value) else None
      case _ => LastModelOutput(trace[..|trace| - 1])
  }

  /** `req.tools.retain(|t| t.name != name)`. */
  function Withdraw(offered: seq<FunctionDefinition>, name: string): (r: seq<FunctionDefinition>)
    ensures !Offers(r, name)
    ensures forall d :: d in r <==> d in offered && d.name != name
  {
    Filter(offered, (d: FunctionDefinition) => d.name != name)
  }

  /** Names run through `tool_call`. */
  predicate IsToolName(ctx: AgentCtx, name: string) {
    Offers(ctx.tools, name) || "RT_" <= name
  }

  /** Names run through `agent_run` (when they are not tool names). */
  predicate IsAgentName(ctx: AgentCtx, name: string) {
    Offers(ctx.agents, name) || "LA_" <= name || "RA_" <= name
  }

  /** What the scan of one model reply's calls updates: the offered
      definitions (`req.tools`), the running usage, the tool-role messages
      for the next turn (`tool_calls_continue`), the reply's calls with the
      results filled in so far, and the trace. */
  datatype Scan = Scan(
    offered: seq<FunctionDefinition>,
    usage: Usage,
    replies: seq<Message>,
    calls: seq<ToolCall>,
    trace: seq<Event>)

  /** The scan continues, or the completion returns early with `result`. */
  datatype Scanned = Scanning(scan: Scan) | Stopped(result: Result<AgentOutput, string>, trace: seq<Event>) {

    /** The trace after the step or scan, in either case. */
    function Trace(): seq<Event> {
      match this
      case Scanning(s) => s.trace
      case Stopped(_, t) => t
    }
  }

  /** Running call `i` as a tool. */
  function ToolStep(ctx: AgentCtx, env: Env, output: AgentOutput, s: Scan, i: nat): Scanned
    requires i < |s.calls|
  {
    var call := s.calls[i];
    var route := ToolRoute(ctx, call.name, call.args);
    var reply := route.ToolReply(env);
    var trace := s.trace + [ToolInvoked(call, route.Sent(), reply)];
    match reply
    case Err(e) =>
      Stopped(Ok(output.(failedReason := Some(e), usage := s.usage, toolCalls := Some(s.calls))), trace)
    case Ok(result) =>
      Scanning(s.(replies := s.replies + [ToolMessage(call.id, result)],
                  calls := s.calls[i := call.(result := Some(result))],
                  trace := trace))
  }

  /** Running call `i` as an agent. */
  function AgentStep(ctx: AgentCtx, env: Env, output: AgentOutput, s: Scan, i: nat): Scanned
    requires i < |s.calls|
  {
    var call := s.calls[i];
    match env.parsePrompt(call.args)
    case Err(e) => Stopped(Err(e), s.trace)
    case Ok(prompt) =>
      var route := AgentRoute(ctx, call.name, prompt, None);
      var reply := route.AgentReply(env);
      var trace := s.trace + [AgentInvoked(call, route.Sent(), reply)];
      match reply
      case Err(e) =>
        Stopped(Ok(output.(failedReason := Some(e), usage := s.usage, toolCalls := Some(s.calls))), trace)
      case Ok(res) =>
        if res.failedReason.Some? then
          Stopped(Ok(output.(failedReason := res.failedReason, toolCalls := Some(s.calls))), trace)
        else
          Scanning(s.(usage := s.usage.Add(res.usage),
                      replies := s.replies + [ToolMessage(call.id, res.content)],
                      calls := s.calls[i := call.(result := Some(res.content))],
                      trace := trace))
  }

  /** One pass of the `for tool in tool_calls.iter_mut()` body, for call `i`. */
  function StepCall(ctx: AgentCtx, env: Env, output: AgentOutput, s: Scan, i: nat): (r: Scanned)
    requires i < |s.calls|
    ensures !Offers(s.offered, s.calls[i].name) ==> r == Scanning(s)
    ensures Offers(s.offered, s.calls[i].name) && r.Scanning? ==>
              r.scan.offered == Withdraw(s.offered, s.calls[i].name)
    ensures Offers(s.offered, s.calls[i].name) && !IsToolName(ctx, s.calls[i].name) && !IsAgentName(ctx, s.calls[i].name) ==>
              r == Scanning(s.(offered := Withdraw(s.offered, s.calls[i].name)))
    ensures r.Scanning? ==> |r.scan.calls| == |s.calls| && r.scan.calls[i + 1..] == s.calls[i + 1..]
    // An offered tool name is run through the tool router, and the attempt is recorded.
    ensures var call := s.calls[i];
            Offers(s.offered, call.name) && IsToolName(ctx, call.name) ==>
              var route := ToolRoute(ctx, call.name, call.args);
              && r.Trace() == s.trace + [ToolInvoked(call, route.Sent(), route.ToolReply(env))]
              && (r.Scanning? <==> route.ToolReply(env).Ok?)
              && (r.Scanning? ==>
                    && r.scan.calls == s.calls[i := call.(result := Some(route.ToolReply(env).value))]
                    && r.scan.replies == s.replies + [ToolMessage(call.id, route.ToolReply(env).value)])
    // An offered agent name has its arguments parsed: a parse error aborts with that
    // error and nothing attempted; otherwise the prompt is run through the agent router.
    ensures var call := s.calls[i];
            Offers(s.offered, call.name) && !IsToolName(ctx, call.name) && IsAgentName(ctx, call.name) ==>
              match env.parsePrompt(call.args)
              case Err(e) => r == Stopped(Err(e), s.trace)
              case Ok(prompt) =>
                var route := AgentRoute(ctx, call.name, prompt, None);
                && r.Trace() == s.trace + [AgentInvoked(call, route.Sent(), route.AgentReply(env))]
                && (r.Scanning? <==> route.AgentReply(env).Ok? && route.AgentReply(env).value.failedReason.None?)
                && (r.Scanning? ==>
                      && r.scan.calls == s.calls[i := call.(result := Some(route.AgentReply(env).value.content))]
                      && r.scan.replies == s.replies + [ToolMessage(call.id, route.AgentReply(env).value.content)])
    // A call that is not attempted leaves the calls and the messages as they are.
    ensures var n := s.calls[i].name;
            !(Offers(s.offered, n) && (IsToolName(ctx, n) || IsAgentName(ctx, n))) ==>
              r.Scanning? && r.scan.calls == s.calls && r.scan.replies == s.replies
  {
    var name := s.calls[i].name;
    if !Offers(s.offered, name) then Scanning(s)
    else
      var s' := s.(offered := Withdraw(s.offered, name));
      if IsToolName(ctx, name) then ToolStep(ctx, env, output, s', i)
      else if IsAgentName(ctx, name) then AgentStep(ctx, env, output, s', i)
      else Scanning(s')
  }

  /** The scan of calls `i..` of a model reply. */
  function ScanFrom(ctx: AgentCtx, env: Env, output: AgentOutput, s: Scan, i: nat): Scanned
    requires i <= |s.calls|
    decreases |s.calls| - i
  {
    if i == |s.calls| then Scanning(s)
    else match StepCall(ctx, env, output, s, i)
      case Stopped(result, trace) => Stopped(result, trace)
      case Scanning(s') => ScanFrom(ctx, env, output, s', i + 1)
  }

  /** The request of the next turn: single-shot inputs cleared, the history
      replaced by the model's snapshot followed by the tool-role messages. */
  function NextRequest(req: CompletionRequest, offered: seq<FunctionDefinition>, history: Option<seq<Message>>,
                       replies: seq<Message>): CompletionRequest
  {
    req.(system := None, documents := [], prompt := "", chatHistory := history.GetOr([]) + replies, tools := offered)
  }

  /** The outcome of one turn of the loop. */
  datatype Turn =
    | Finished(result: Result<AgentOutput, string>, trace: seq<Event>)
    | Continued(request: CompletionRequest, calls: seq<ToolCall>, usage: Usage, trace: seq<Event>)

  /** The end of a turn whose calls all ran: return when no tool-role
      message was produced, and otherwise continue with the next request. */
  function Conclude(req: CompletionRequest, acc: seq<ToolCall>, output: AgentOutput, s: Scan): Turn {
    var acc' := acc + s.calls;
    if |s.replies| == 0 then
      Finished(Ok(output.(toolCalls := if |acc'| == 0 then None else Some(acc'), usage := s.usage)), s.trace)
    else
      Continued(NextRequest(req, s.offered, output.fullHistory, s.replies), acc', s.usage, s.trace)
  }

  /** One turn of the loop body, from the request, the calls gathered so far
      (`tool_calls_result`), the running usage and the trace. */
  function Iterate(ctx: AgentCtx, env: Env, req: CompletionRequest, acc: seq<ToolCall>, usage: Usage, trace: seq<Event>): Turn {
    var reply := env.complete(ctx.model, req);
    var t := trace + [ModelCalled(req, reply)];
    match reply
    case Err(e) => Finished(Err(e), t)
    case Ok(output) =>
      var start := Scan(req.tools, usage.Add(output.usage), [], output.toolCalls.GetOr([]), t);
      match ScanFrom(ctx, env, output, start, 0)
      case Stopped(result, t') => Finished(result, t')
      case Scanning(s) => Conclude(req, acc, output, s)
  }

  /** Returned: the completion returned within the fuel. Exhausted: it was
      still looping when the fuel ran out. */
  datatype Outcome = Returned(result: Result<AgentOutput, string>) | Exhausted

  /** At most `fuel` turns of the loop. */
  function Run(ctx: AgentCtx, env: Env, req: CompletionRequest, acc: seq<ToolCall>, usage: Usage, trace: seq<Event>,
               fuel: nat): (Outcome, seq<Event>)
    decreases fuel
  {
    if fuel == 0 then (Exhausted, trace)
    else match Iterate(ctx, env, req, acc, usage, trace)
      case Finished(result, t) => (Returned(result), t)
      case Continued(req', acc', usage', t) => Run(ctx, env, req', acc', usage', t, fuel - 1)
  }

  /** The tool branch of the loop body, for call `i`. */
  method RunTool(ctx: AgentCtx, env: Env, output: AgentOutput, s: Scan, i: nat) returns (r: Scanned)
    requires i < |s.calls|
    ensures r == ToolStep(ctx, env, output, s, i)
  {
    var call := s.calls[i];
    var reply, sent := Router.ToolCall(ctx, env, call.name, call.args);
    var trace := s.trace + [ToolInvoked(call, sent, reply)];
    if reply.Err? {
      return Stopped(Ok(output.(failedReason := Some(reply.error), usage := s.usage, toolCalls := Some(s.calls))), trace);
    }
    return Scanning(s.(replies := s.replies + [ToolMessage(call.id, reply.value)],
                       calls := s.calls[i := call.(result := Some(reply.value))],
                       trace := trace));
  }

  /** The agent branch of the loop body, for call `i`. */
  method RunAgent(ctx: AgentCtx, env: Env, output: AgentOutput, s: Scan, i: nat) returns (r: Scanned)
    requires i < |s.calls|
    ensures r == AgentStep(ctx, env, output, s, i)
  {
    var call := s.calls[i];
    var parsed := env.parsePrompt(call.args);
    if parsed.Err? {
      return Stopped(Err(parsed.error), s.trace);
    }
    var reply, sent := AgentRun(ctx, env, call.name, parsed.value, None);
    var trace := s.trace + [AgentInvoked(call, sent, reply)];
    if reply.Err? {
      return Stopped(Ok(output.(failedReason := Some(reply.error), usage := s.usage, toolCalls := Some(s.calls))), trace);
    }
    var res := reply.value;
    if res.failedReason.Some? {
      return Stopped(Ok(output.(failedReason := res.failedReason, toolCalls := Some(s.calls))), trace);
    }
    return Scanning(s.(usage := s.usage.Add(res.usage),
                       replies := s.replies + [ToolMessage(call.id, res.content)],
                       calls := s.calls[i := call.(result := Some(res.content))],
                       trace := trace));
  }

  /** The inner loop over one model reply's tool calls. */
  method ScanCalls(ctx: AgentCtx, env: Env, output: AgentOutput, start: Scan) returns (r: Scanned)
    ensures r == ScanFrom(ctx, env, output, start, 0)
  {
    var s := start;
    var i := 0;
    while i < |s.calls|
      invariant i <= |s.calls| == |start.calls|
      invariant ScanFrom(ctx, env, output, s, i) == ScanFrom(ctx, env, output, start, 0)
      decreases |s.calls| - i
    {
      var name := s.calls[i].name;
      var offered := Contains(s.offered, name);
      if offered {
        var step: Scanned := Scanning(s.(offered := Withdraw(s.offered, name)));
        var localTool := Contains(ctx.tools, name);
        if localTool || "RT_" <= name {
          step := RunTool(ctx, env, output, step.scan, i);
        } else {
          var localAgent := Contains(ctx.agents, name);
          if localAgent || "LA_" <= name || "RA_" <= name {
            step := RunAgent(ctx, env, output, step.scan, i);
          }
        }
        assert step == StepCall(ctx, env, output, s, i);
        if step.Stopped? {
          return step;
        }
        s := step.scan;
      }
      i := i + 1;
    }
    return Scanning(s);
  }

  /** `completion`, run for at most `fuel` turns; the trace records every
      model call and every tool or agent call attempted, in order. */
  method Complete(ctx: AgentCtx, env: Env, request: CompletionRequest, fuel: nat) returns (outcome: Outcome, trace: seq<Event>)
    ensures (outcome, trace) == Run(ctx, env, request, [], NoUsage, [], fuel)
  {
    var req := request;
    var toolCallsResult: seq<ToolCall> := [];
    var usage := NoUsage;
    trace := [];
    var left := fuel;
    while left > 0
      invariant Run(ctx, env, req, toolCallsResult, usage, trace, left) == Run(ctx, env, request, [], NoUsage, [], fuel)
      decreases left
    {
      ghost var turn := Iterate(ctx, env, req, toolCallsResult, usage, trace);
      var reply := env.complete(ctx.model, req);
      trace := trace + [ModelCalled(req, reply)];
      if reply.Err? {
        return Returned(Err(reply.error)), trace;
      }
      var output := reply.value;
      usage := usage.Add(output.usage);
      var replies: seq<Message> := [];
      if output.toolCalls.Some? {
        var scanned := ScanCalls(ctx, env, output, Scan(req.tools, usage, [], output.toolCalls.value, trace));
        if scanned.Stopped? {
          return Returned(scanned.result), scanned.trace;
        }
        req := req.(tools := scanned.scan.offered);
        usage := scanned.scan.usage;
        replies := scanned.scan.replies;
        trace := scanned.scan.trace;
        toolCallsResult := toolCallsResult + scanned.scan.calls;
      } else {
        assert toolCallsResult + [] == toolCallsResult;
      }
      if |replies| == 0 {
        output := output.(toolCalls := if |toolCallsResult| == 0 then None else Some(toolCallsResult), usage := usage);
        return Returned(Ok(output)), trace;
      }
      req := req.(system := None, documents := [], prompt := "", chatHistory := output.fullHistory.GetOr([]) + replies);
      assert turn == Continued(req, toolCallsResult, usage, trace);
      left := left - 1;
    }
    return Exhausted, trace;
  }
}

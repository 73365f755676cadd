/** What the completion loop guarantees, stated over the trace of its
    interactions: usage accounting, one invocation per offered definition,
    failures end the completion, and the shape of the returned output. */
module CompletionFacts {
  import opened Wrappers
  import opened Types
  import opened Context
  import opened Completion
  import Seqs

  /** The names of all tool and agent calls attempted in `trace`, in order. */
  function Invoked(trace: seq<Event>): seq<string> {
    if |trace| == 0 then []
    else
      var e := trace[|trace| - 1];
      Invoked(trace[..|trace| - 1]) + if e.Invocation() then [e.call.name] else []
  }

  /** The tool-role messages of every attempt in `trace`, in order. */
  function AllReplies(trace: seq<Event>): seq<Message> {
    if |trace| == 0 then [] else AllReplies(trace[..|trace| - 1]) + trace[|trace| - 1].Reply()
  }

  /** A call's identity without its result. */
  function Skeletons(calls: seq<ToolCall>): seq<ToolCall> {
    seq(|calls|, k requires 0 <= k < |calls| => calls[k].(result := None))
  }

  ghost predicate Distinct(names: seq<string>) {
    forall j, k :: 0 <= j < k < |names| ==> names[j] != names[k]
  }

  ghost predicate NoFailure(trace: seq<Event>) {
    forall k :: 0 <= k < |trace| ==> !trace[k].Failing()
  }

  /** Only the last event may be a failing call. */
  ghost predicate FailsOnlyAtEnd(trace: seq<Event>) {
    forall k :: 0 <= k < |trace| - 1 ==> !trace[k].Failing()
  }

  /** Every attempted name was offered in `offered0` and none is attempted twice. */
  ghost predicate InvokedFrom(offered0: seq<FunctionDefinition>, trace: seq<Event>) {
    && Distinct(Invoked(trace))
    && forall n :: n in Invoked(trace) ==> Offers(offered0, n)
  }

  /** The definitions still offered are some of `offered0`, without any name already attempted. */
  ghost predicate Withdrawn(offered0: seq<FunctionDefinition>, offered: seq<FunctionDefinition>, trace: seq<Event>) {
    && InvokedFrom(offered0, trace)
    && (forall d :: d in offered ==> d in offered0)
    && forall n :: n in Invoked(trace) ==> !Offers(offered, n)
  }

  /** A sub-agent returned normally but reported a failed reason. */
  predicate SubAgentFailed(e: Event) {
    e.AgentInvoked? && e.agentReply.Ok? && e.agentReply.value.failedReason.Some?
  }

  /** The output of an early return: the model's `output` with the failure
      reason, the current reply's calls (each with the model's own result or
      the content of the tool-role message answering it) and (except after a sub-agent's own
      failure, which keeps the model's usage) the accumulated usage. */
  ghost predicate EarlyReturn(output: AgentOutput, o: AgentOutput, trace: seq<Event>) {
    && |trace| > 0
    && trace[|trace| - 1].Invocation() && trace[|trace| - 1].Failing()
    && LastModelOutput(trace) == Some(output)
    && o == output.(failedReason := trace[|trace| - 1].FailureReason(), toolCalls := o.toolCalls, usage := o.usage)
    && o.toolCalls.Some?
    && Skeletons(o.toolCalls.value) == Skeletons(output.toolCalls.GetOr([]))
    && AllAnswered(o.toolCalls.value, output.toolCalls.GetOr([]), RepliesSinceModel(trace))
    && o.usage == if SubAgentFailed(trace[|trace| - 1]) then output.usage else TraceUsage(trace)
  }

  /** The output of a normal return, which happens only when the calls since
      the last model call produced no tool-role message: the last model
      `output` with every call of every reply and the total usage. */
  ghost predicate NormalReturn(output: AgentOutput, o: AgentOutput, trace: seq<Event>) {
    && RepliesSinceModel(trace) == []
    && LastModelOutput(trace) == Some(output)
    && o == output.(toolCalls := o.toolCalls, usage := o.usage)
    && o.usage == TraceUsage(trace)
    && Skeletons(o.toolCalls.GetOr([])) == Skeletons(EmittedCalls(trace))
    && (o.toolCalls.None? <==> |EmittedCalls(trace)| == 0)
  }

  /** A result that is a normal return holds calls answered by the messages of its whole trace. */
  ghost predicate AnsweredReturn(result: Result<AgentOutput, string>, trace: seq<Event>) {
    result.Ok? && !(|trace| > 0 && trace[|trace| - 1].Failing()) ==>
      AllAnswered(result.value.toolCalls.GetOr([]), EmittedCalls(trace), AllReplies(trace))
  }

  /** Which of the two an `Ok` result of the completion is, by its trace. */
  ghost predicate ReturnedWell(o: AgentOutput, trace: seq<Event>) {
    && LastModelOutput(trace).Some?
    && if |trace| > 0 && trace[|trace| - 1].Failing() then EarlyReturn(LastModelOutput(trace).value, o, trace)
       else NormalReturn(LastModelOutput(trace).value, o, trace)
  }

  /** `call` names an agent (and no tool), was offered in `offered0`, is not
      attempted in `trace`, and its arguments do not parse into a prompt. */
  predicate Unparsable(ctx: AgentCtx, env: Env, offered0: seq<FunctionDefinition>, trace: seq<Event>, call: ToolCall,
                       error: string)
  {
    && Offers(offered0, call.name) && call.name !in Invoked(trace)
    && !IsToolName(ctx, call.name) && IsAgentName(ctx, call.name)
    && env.parsePrompt(call.args) == Err(error)
  }

  /** The scan of the reply `output` stopped with `error` on one of its calls
      whose arguments did not parse, before any attempt failed. */
  ghost predicate ParseFailed(ctx: AgentCtx, env: Env, offered0: seq<FunctionDefinition>, output: AgentOutput,
                              trace: seq<Event>, error: string)
  {
    && LastModelOutput(trace) == Some(output)
    && NoFailure(trace)
    && exists k :: 0 <= k < |output.toolCalls.GetOr([])| &&
                   Unparsable(ctx, env, offered0, trace, output.toolCalls.GetOr([])[k], error)
  }

  /** The two ways the completion returns `Err(error)`: the model call that
      ends the trace failed with `error`, or an agent call's arguments did not parse. */
  ghost predicate HardError(ctx: AgentCtx, env: Env, offered0: seq<FunctionDefinition>, trace: seq<Event>, error: string) {
    || (|trace| > 0 && trace[|trace| - 1].ModelCalled? && trace[|trace| - 1].reply == Err(error))
    || (LastModelOutput(trace).Some? && ParseFailed(ctx, env, offered0, LastModelOutput(trace).value, trace, error))
  }

  /** `call` still holds the result of the model's `original`, or holds the
      content of a tool-role message in `replies` that answers it. */
  predicate Answered(call: ToolCall, original: ToolCall, replies: seq<Message>) {
    || call.result == original.result
    || (call.result.Some? && ToolMessage(call.id, call.result.value) in replies)
  }

  /** Each of `calls` is answered, position by position, against the model's `originals`. */
  ghost predicate AllAnswered(calls: seq<ToolCall>, originals: seq<ToolCall>, replies: seq<Message>) {
    && |calls| == |originals|
    && forall k :: 0 <= k < |calls| ==> Answered(calls[k], originals[k], replies)
  }

  /** What holds of the scan state while a reply's calls are run. */
  ghost predicate ScanInv(offered0: seq<FunctionDefinition>, output: AgentOutput, s: Scan) {
    && s.usage == TraceUsage(s.trace)
    && s.replies == RepliesSinceModel(s.trace)
    && LastModelOutput(s.trace) == Some(output)
    && NoFailure(s.trace)
    && Withdrawn(offered0, s.offered, s.trace)
    && Skeletons(s.calls) == Skeletons(output.toolCalls.GetOr([]))
    && AllAnswered(s.calls, output.toolCalls.GetOr([]), s.replies)
  }

  /** What a step or the rest of a scan from `s` guarantees. */
  ghost predicate Kept(ctx: AgentCtx, env: Env, offered0: seq<FunctionDefinition>, output: AgentOutput, s: Scan,
                       r: Scanned)
  {
    match r
    case Scanning(s') =>
      && ScanInv(offered0, output, s')
      && EmittedCalls(s'.trace) == EmittedCalls(s.trace)
      && |s'.calls| == |s.calls|
      && (forall d :: d in s'.offered ==> d in s.offered)
      && forall m :: m in AllReplies(s.trace) ==> m in AllReplies(s'.trace)
    case Stopped(result, t) =>
      && InvokedFrom(offered0, t)
      && FailsOnlyAtEnd(t)
      && (|t| > 0 && t[|t| - 1].Failing() ==> result.Ok?)
      && (result.Ok? ==> EarlyReturn(output, result.value, t))
      && (result.Err? ==> ParseFailed(ctx, env, offered0, output, t, result.error))
  }

  /** What holds of the loop state between turns. */
  ghost predicate RunInv(offered0: seq<FunctionDefinition>, req: CompletionRequest, acc: seq<ToolCall>, usage: Usage,
                         trace: seq<Event>)
  {
    && usage == TraceUsage(trace)
    && NoFailure(trace)
    && Withdrawn(offered0, req.tools, trace)
    && Skeletons(acc) == Skeletons(EmittedCalls(trace))
    && AllAnswered(acc, EmittedCalls(trace), AllReplies(trace))
  }

  /** What a finished completion guarantees. */
  ghost predicate Settled(ctx: AgentCtx, env: Env, offered0: seq<FunctionDefinition>, result: Result<AgentOutput, string>,
                          trace: seq<Event>)
  {
    && InvokedFrom(offered0, trace)
    && FailsOnlyAtEnd(trace)
    && (|trace| > 0 && trace[|trace| - 1].Failing() ==> result.Ok?)
    && (result.Ok? ==> ReturnedWell(result.value, trace))
    && (result.Err? ==> HardError(ctx, env, offered0, trace, result.error))
  }

  /** How each trace summary extends when one event is appended. */
  lemma Snoc(trace: seq<Event>, e: Event)
    ensures TraceUsage(trace + [e]) == TraceUsage(trace).Add(e.Spent())
    ensures EmittedCalls(trace + [e]) == EmittedCalls(trace) + e.Emitted()
    ensures Invoked(trace + [e]) == Invoked(trace) + if e.Invocation() then [e.call.name] else []
    ensures RepliesSinceModel(trace + [e]) == if e.ModelCalled? then [] else RepliesSinceModel(trace) + e.Reply()
    ensures AllReplies(trace + [e]) == AllReplies(trace) + e.Reply()
    ensures LastModelOutput(trace + [e]) ==
              if e.ModelCalled? then (if e.reply.Ok? then Some(e.reply.value) else None) else LastModelOutput(trace)
  {
    assert (trace + [e])[..|trace|] == trace;
  }

  /** The messages since the last model call are among all the messages. */
  lemma {:induction false} RecentReplies(trace: seq<Event>)
    ensures forall m :: m in RepliesSinceModel(trace) ==> m in AllReplies(trace)
  {
    if |trace| > 0 {
      var init := trace[..|trace| - 1];
      assert trace == init + [trace[|trace| - 1]];
      Snoc(init, trace[|trace| - 1]);
      RecentReplies(init);
    }
  }

  /** Answered calls stay answered when more messages are available. */
  lemma AnsweredJoin(a: seq<ToolCall>, oa: seq<ToolCall>, ra: seq<Message>, b: seq<ToolCall>, ob: seq<ToolCall>,
                     rb: seq<Message>, replies: seq<Message>)
    requires AllAnswered(a, oa, ra) && AllAnswered(b, ob, rb)
    requires forall m :: m in ra ==> m in replies
    requires forall m :: m in rb ==> m in replies
    ensures AllAnswered(a + b, oa + ob, replies)
  {
    forall k | 0 <= k < |a + b|
      ensures Answered((a + b)[k], (oa + ob)[k], replies)
    {
      if k < |a| {
        assert Answered(a[k], oa[k], ra);
      } else {
        assert Answered(b[k - |a|], ob[k - |a|], rb);
      }
    }
  }

  lemma DistinctSnoc(names: seq<string>, n: string)
    requires Distinct(names) && n !in names
    ensures Distinct(names + [n])
  {
    forall j, k | 0 <= j < k < |names + [n]|
      ensures (names + [n])[j] != (names + [n])[k]
    {
      if k == |names| {
        assert names[j] in names;
      }
    }
  }

  lemma SkeletonsAppend(a: seq<ToolCall>, b: seq<ToolCall>)
    ensures Skeletons(a + b) == Skeletons(a) + Skeletons(b)
  {
    assert forall k :: 0 <= k < |a + b| ==> Skeletons(a + b)[k] == (Skeletons(a) + Skeletons(b))[k];
  }

  lemma SkeletonsUpdate(calls: seq<ToolCall>, i: nat, result: string)
    requires i < |calls|
    ensures Skeletons(calls[i := calls[i].(result := Some(result))]) == Skeletons(calls)
  {
    assert forall k :: 0 <= k < |calls| ==>
      Skeletons(calls[i := calls[i].(result := Some(result))])[k] == Skeletons(calls)[k];
  }

  lemma OffersWithin(small: seq<FunctionDefinition>, large: seq<FunctionDefinition>, n: string)
    requires forall d :: d in small ==> d in large
    requires Offers(small, n)
    ensures Offers(large, n)
  {
    var d :| d in small && d.name == n;
    assert d in large;
  }

  /** Appending an attempt of a fresh, offered name keeps the name bookkeeping. */
  lemma AttemptKeeps(offered0: seq<FunctionDefinition>, offered: seq<FunctionDefinition>, trace: seq<Event>, e: Event)
    requires Withdrawn(offered0, offered, trace)
    requires e.Invocation()
    requires Offers(offered0, e.call.name) && !Offers(offered, e.call.name) && e.call.name !in Invoked(trace)
    ensures Withdrawn(offered0, offered, trace + [e])
  {
    Snoc(trace, e);
    DistinctSnoc(Invoked(trace), e.call.name);
  }

  /** An attempt that fails stops the scan with the early-return output. */
  lemma AttemptStops(ctx: AgentCtx, env: Env, offered0: seq<FunctionDefinition>, output: AgentOutput, s: Scan, e: Event,
                     o: AgentOutput)
    requires ScanInv(offered0, output, s)
    requires e.Invocation() && e.Failing()
    requires Offers(offered0, e.call.name) && !Offers(s.offered, e.call.name) && e.call.name !in Invoked(s.trace)
    requires o == output.(failedReason := e.FailureReason(), toolCalls := Some(s.calls),
                          usage := if SubAgentFailed(e) then output.usage else s.usage)
    ensures Kept(ctx, env, offered0, output, s, Stopped(Ok(o), s.trace + [e]))
  {
    Snoc(s.trace, e);
    AttemptKeeps(offered0, s.offered, s.trace, e);
  }

  /** An attempt that succeeds records its result and its tool-role message. */
  lemma AttemptContinues(ctx: AgentCtx, env: Env, offered0: seq<FunctionDefinition>, output: AgentOutput, s: Scan, i: nat,
                         e: Event, content: string)
    requires i < |s.calls|
    requires ScanInv(offered0, output, s)
    requires e.Invocation() && !e.Failing() && e.call == s.calls[i]
    requires e.Reply() == [ToolMessage(e.call.id, content)]
    requires Offers(offered0, e.call.name) && !Offers(s.offered, e.call.name) && e.call.name !in Invoked(s.trace)
    ensures Kept(ctx, env, offered0, output, s, Scanning(s.(usage := s.usage.Add(e.Spent()),
                                                             replies := s.replies + e.Reply(),
                                                             calls := s.calls[i := e.call.(result := Some(content))],
                                                             trace := s.trace + [e])))
  {
    Snoc(s.trace, e);
    AttemptKeeps(offered0, s.offered, s.trace, e);
    SkeletonsUpdate(s.calls, i, content);
  }

  lemma ToolStepKeeps(ctx: AgentCtx, env: Env, offered0: seq<FunctionDefinition>, output: AgentOutput, s: Scan, i: nat)
    requires i < |s.calls|
    requires ScanInv(offered0, output, s)
    requires Offers(offered0, s.calls[i].name) && !Offers(s.offered, s.calls[i].name)
    requires s.calls[i].name !in Invoked(s.trace)
    ensures Kept(ctx, env, offered0, output, s, ToolStep(ctx, env, output, s, i))
    ensures ToolStep(ctx, env, output, s, i).Stopped? ==> ToolStep(ctx, env, output, s, i).result.Ok?
  {
    var call := s.calls[i];
    var route := Router.ToolRoute(ctx, call.name, call.args);
    var reply := route.ToolReply(env);
    var e := ToolInvoked(call, route.Sent(), reply);
    if reply.Ok? {
      assert s.usage.Add(e.Spent()) == s.usage;
      AttemptContinues(ctx, env, offered0, output, s, i, e, reply.value);
    } else {
      AttemptStops(ctx, env, offered0, output, s, e, output.(failedReason := Some(reply.error), usage := s.usage,
                                                   toolCalls := Some(s.calls)));
    }
  }

  lemma AgentStepKeeps(ctx: AgentCtx, env: Env, offered0: seq<FunctionDefinition>, output: AgentOutput, s: Scan, i: nat)
    requires i < |s.calls|
    requires ScanInv(offered0, output, s)
    requires Offers(offered0, s.calls[i].name) && !Offers(s.offered, s.calls[i].name)
    requires s.calls[i].name !in Invoked(s.trace)
    requires !IsToolName(ctx, s.calls[i].name) && IsAgentName(ctx, s.calls[i].name)
    ensures Kept(ctx, env, offered0, output, s, AgentStep(ctx, env, output, s, i))
    ensures var r := AgentStep(ctx, env, output, s, i);
            r.Stopped? && r.result.Err? ==> r.trace == s.trace && env.parsePrompt(s.calls[i].args) == Err(r.result.error)
    ensures env.parsePrompt(s.calls[i].args).Err? ==>
              AgentStep(ctx, env, output, s, i) == Stopped(Err(env.parsePrompt(s.calls[i].args).error), s.trace)
  {
    var call := s.calls[i];
    var parsed := env.parsePrompt(call.args);
    if parsed.Err? {
      var calls := output.toolCalls.GetOr([]);
      assert Skeletons(s.calls)[i] == Skeletons(calls)[i];
      assert calls[i].name == call.name && calls[i].args == call.args;
      assert Unparsable(ctx, env, offered0, s.trace, calls[i], parsed.error);
    } else {
      var route := Router.AgentRoute(ctx, call.name, parsed.value, None);
      var reply := route.AgentReply(env);
      var e := AgentInvoked(call, route.Sent(), reply);
      if reply.Err? {
        AttemptStops(ctx, env, offered0, output, s, e, output.(failedReason := Some(reply.error), usage := s.usage,
                                                     toolCalls := Some(s.calls)));
      } else if reply.value.failedReason.Some? {
        AttemptStops(ctx, env, offered0, output, s, e, output.(failedReason := reply.value.failedReason,
                                                     toolCalls := Some(s.calls)));
      } else {
        AttemptContinues(ctx, env, offered0, output, s, i, e, reply.value.content);
      }
    }
  }

  lemma StepKeeps(ctx: AgentCtx, env: Env, offered0: seq<FunctionDefinition>, output: AgentOutput, s: Scan, i: nat)
    requires i < |s.calls|
    requires ScanInv(offered0, output, s)
    ensures Kept(ctx, env, offered0, output, s, StepCall(ctx, env, output, s, i))
  {
    var name := s.calls[i].name;
    if Offers(s.offered, name) {
      var s' := s.(offered := Withdraw(s.offered, name));
      OffersWithin(s.offered, offered0, name);
      forall n | n in Invoked(s'.trace)
        ensures !Offers(s'.offered, n)
      {
        if Offers(s'.offered, n) {
          OffersWithin(s'.offered, s.offered, n);
        }
      }
      assert ScanInv(offered0, output, s');
      if IsToolName(ctx, name) {
        ToolStepKeeps(ctx, env, offered0, output, s', i);
      } else if IsAgentName(ctx, name) {
        AgentStepKeeps(ctx, env, offered0, output, s', i);
      }
    }
  }

  lemma {:induction false} ScanKeeps(ctx: AgentCtx, env: Env, offered0: seq<FunctionDefinition>, output: AgentOutput,
                                     s: Scan, i: nat)
    requires i <= |s.calls|
    requires ScanInv(offered0, output, s)
    ensures Kept(ctx, env, offered0, output, s, ScanFrom(ctx, env, output, s, i))
    decreases |s.calls| - i
  {
    if i < |s.calls| {
      StepKeeps(ctx, env, offered0, output, s, i);
      match StepCall(ctx, env, output, s, i)
      case Stopped(_, _) =>
      case Scanning(s') =>
        ScanKeeps(ctx, env, offered0, output, s', i + 1);
    }
  }

  /** The scan of a model reply starts in a state that satisfies the scan invariant. */
  lemma StartKeeps(offered0: seq<FunctionDefinition>, req: CompletionRequest, acc: seq<ToolCall>, usage: Usage,
                   trace: seq<Event>, output: AgentOutput)
    requires RunInv(offered0, req, acc, usage, trace)
    ensures var t := trace + [ModelCalled(req, Ok(output))];
            && ScanInv(offered0, output, Scan(req.tools, usage.Add(output.usage), [], output.toolCalls.GetOr([]), t))
            && EmittedCalls(t) == EmittedCalls(trace) + output.toolCalls.GetOr([])
            && AllReplies(t) == AllReplies(trace)
  {
    Snoc(trace, ModelCalled(req, Ok(output)));
  }

  /** The calls gathered after a scan are, up to results, all the calls the model asked for. */
  lemma GatherKeeps(offered0: seq<FunctionDefinition>, output: AgentOutput, acc: seq<ToolCall>, trace: seq<Event>, s: Scan)
    requires ScanInv(offered0, output, s)
    requires Skeletons(acc) == Skeletons(EmittedCalls(trace))
    requires EmittedCalls(s.trace) == EmittedCalls(trace) + output.toolCalls.GetOr([])
    ensures Skeletons(acc + s.calls) == Skeletons(EmittedCalls(s.trace))
    ensures |acc + s.calls| == |EmittedCalls(s.trace)|
  {
    SkeletonsAppend(acc, s.calls);
    SkeletonsAppend(EmittedCalls(trace), output.toolCalls.GetOr([]));
    assert |Skeletons(acc + s.calls)| == |acc + s.calls|;
  }

  /** The end of a turn returns exactly when the turn's calls produced no
      tool-role message, and then a well-formed output; otherwise it keeps
      the loop invariant. */
  lemma ConcludeKeeps(ctx: AgentCtx, env: Env, offered0: seq<FunctionDefinition>, req: CompletionRequest,
                      acc: seq<ToolCall>, trace: seq<Event>, output: AgentOutput, s: Scan)
    requires ScanInv(offered0, output, s)
    requires Skeletons(acc) == Skeletons(EmittedCalls(trace))
    requires EmittedCalls(s.trace) == EmittedCalls(trace) + output.toolCalls.GetOr([])
    requires AllAnswered(acc, EmittedCalls(trace), AllReplies(trace))
    requires forall m :: m in AllReplies(trace) ==> m in AllReplies(s.trace)
    ensures Conclude(req, acc, output, s).Finished? <==> RepliesSinceModel(s.trace) == []
    ensures match Conclude(req, acc, output, s)
            case Finished(result, t) =>
              && result.Ok? && Settled(ctx, env, offered0, result, t)
              && AnsweredReturn(result, t)
            case Continued(req', acc', usage', t) => RunInv(offered0, req', acc', usage', t)
  {
    GatherKeeps(offered0, output, acc, trace, s);
    RecentReplies(s.trace);
    AnsweredJoin(acc, EmittedCalls(trace), AllReplies(trace), s.calls, output.toolCalls.GetOr([]), s.replies,
                 AllReplies(s.trace));
  }

  /** What one turn of the loop guarantees. */
  lemma IterateKeeps(ctx: AgentCtx, env: Env, offered0: seq<FunctionDefinition>, req: CompletionRequest,
                     acc: seq<ToolCall>, usage: Usage, trace: seq<Event>)
    requires RunInv(offered0, req, acc, usage, trace)
    ensures match Iterate(ctx, env, req, acc, usage, trace)
            case Finished(result, t) => Settled(ctx, env, offered0, result, t)
            case Continued(req', acc', usage', t) => RunInv(offered0, req', acc', usage', t)
  {
    var reply := env.complete(ctx.model, req);
    if reply.Ok? {
      var output := reply.value;
      var t := trace + [ModelCalled(req, reply)];
      var start := Scan(req.tools, usage.Add(output.usage), [], output.toolCalls.GetOr([]), t);
      StartKeeps(offered0, req, acc, usage, trace, output);
      ScanKeeps(ctx, env, offered0, output, start, 0);
      match ScanFrom(ctx, env, output, start, 0)
      case Stopped(_, _) =>
      case Scanning(s) =>
        ConcludeKeeps(ctx, env, offered0, req, acc, trace, output, s);
    } else {
      Snoc(trace, ModelCalled(req, reply));
    }
  }

  /** A normal return (one that does not end on a failing call) of a turn
      returns calls each answered by a message of the trace. */
  lemma IterateAnswers(ctx: AgentCtx, env: Env, offered0: seq<FunctionDefinition>, req: CompletionRequest,
                       acc: seq<ToolCall>, usage: Usage, trace: seq<Event>)
    requires RunInv(offered0, req, acc, usage, trace)
    ensures match Iterate(ctx, env, req, acc, usage, trace)
            case Finished(result, t) => AnsweredReturn(result, t)
            case Continued(req', acc', usage', t) => RunInv(offered0, req', acc', usage', t)
  {
    var reply := env.complete(ctx.model, req);
    if reply.Ok? {
      var output := reply.value;
      var t := trace + [ModelCalled(req, reply)];
      var start := Scan(req.tools, usage.Add(output.usage), [], output.toolCalls.GetOr([]), t);
      StartKeeps(offered0, req, acc, usage, trace, output);
      ScanKeeps(ctx, env, offered0, output, start, 0);
      match ScanFrom(ctx, env, output, start, 0)
      case Stopped(_, _) =>
      case Scanning(s) =>
        ConcludeKeeps(ctx, env, offered0, req, acc, trace, output, s);
    }
  }

  lemma {:induction false} RunAnswers(ctx: AgentCtx, env: Env, offered0: seq<FunctionDefinition>, req: CompletionRequest,
                                      acc: seq<ToolCall>, usage: Usage, trace: seq<Event>, fuel: nat)
    requires RunInv(offered0, req, acc, usage, trace)
    ensures var (outcome, t) := Run(ctx, env, req, acc, usage, trace, fuel);
            outcome.Returned? ==> AnsweredReturn(outcome.result, t)
    decreases fuel
  {
    if fuel > 0 {
      IterateAnswers(ctx, env, offered0, req, acc, usage, trace);
      match Iterate(ctx, env, req, acc, usage, trace)
      case Finished(_, _) =>
      case Continued(req', acc', usage', t) =>
        RunAnswers(ctx, env, offered0, req', acc', usage', t, fuel - 1);
    }
  }

  lemma {:induction false} RunKeeps(ctx: AgentCtx, env: Env, offered0: seq<FunctionDefinition>, req: CompletionRequest,
                                    acc: seq<ToolCall>, usage: Usage, trace: seq<Event>, fuel: nat)
    requires RunInv(offered0, req, acc, usage, trace)
    ensures var (outcome, t) := Run(ctx, env, req, acc, usage, trace, fuel);
            match outcome
            case Returned(result) => Settled(ctx, env, offered0, result, t)
            case Exhausted => InvokedFrom(offered0, t) && NoFailure(t)
    decreases fuel
  {
    if fuel > 0 {
      IterateKeeps(ctx, env, offered0, req, acc, usage, trace);
      match Iterate(ctx, env, req, acc, usage, trace)
      case Finished(_, _) =>
      case Continued(req', acc', usage', t) =>
        RunKeeps(ctx, env, offered0, req', acc', usage', t, fuel - 1);
    }
  }

  /** Each offered tool or agent is attempted at most once per completion,
      and only names offered in the initial request are attempted. */
  lemma InvokedOnce(ctx: AgentCtx, env: Env, request: CompletionRequest, fuel: nat)
    ensures var (_, trace) := Run(ctx, env, request, [], NoUsage, [], fuel);
            && Distinct(Invoked(trace))
            && forall n :: n in Invoked(trace) ==> Offers(request.tools, n)
  {
    RunKeeps(ctx, env, request.tools, request, [], NoUsage, [], fuel);
  }

  /** A failing tool or agent call ends the completion: it can only be the
      last event of the trace, and then the completion returns `Ok`. */
  lemma FailureEndsCompletion(ctx: AgentCtx, env: Env, request: CompletionRequest, fuel: nat)
    ensures var (outcome, trace) := Run(ctx, env, request, [], NoUsage, [], fuel);
            && (forall k :: 0 <= k < |trace| - 1 ==> !trace[k].Failing())
            && (|trace| > 0 && trace[|trace| - 1].Failing() ==> outcome.Returned? && outcome.result.Ok?)
  {
    RunKeeps(ctx, env, request.tools, request, [], NoUsage, [], fuel);
  }

  /** A completion returns `Err` only with the error of the failed model call
      that ends its trace, or with the parse error of the arguments of an
      offered, not yet attempted agent call of the last model reply. */
  lemma ErrorCauses(ctx: AgentCtx, env: Env, request: CompletionRequest, fuel: nat)
    ensures var (outcome, trace) := Run(ctx, env, request, [], NoUsage, [], fuel);
            outcome.Returned? && outcome.result.Err? ==> HardError(ctx, env, request.tools, trace, outcome.result.error)
  {
    RunKeeps(ctx, env, request.tools, request, [], NoUsage, [], fuel);
  }

  /** The output of a completion that returns `Ok`: on a failing call, the
      current model output with that failure's reason and the current reply's
      calls, and the accumulated usage unless a sub-agent reported the
      failure; otherwise the last model output with the calls of every reply
      (`None` when there were none) and the usage of every model call and
      sub-agent. */
  lemma ReturnedOutput(ctx: AgentCtx, env: Env, request: CompletionRequest, fuel: nat)
    ensures var (outcome, trace) := Run(ctx, env, request, [], NoUsage, [], fuel);
            outcome.Returned? && outcome.result.Ok? ==> ReturnedWell(outcome.result.value, trace)
    ensures var (outcome, trace) := Run(ctx, env, request, [], NoUsage, [], fuel);
            outcome.Returned? ==> AnsweredReturn(outcome.result, trace)
  {
    RunKeeps(ctx, env, request.tools, request, [], NoUsage, [], fuel);
    RunAnswers(ctx, env, request.tools, request, [], NoUsage, [], fuel);
  }

  /** The request of a following turn: system prompt, documents and prompt
      cleared, history the model's snapshot followed by at least one
      tool-role message from this turn's calls, and only definitions that
      were still offered. */
  lemma ContinuationRequest(ctx: AgentCtx, env: Env, offered0: seq<FunctionDefinition>, req: CompletionRequest,
                            acc: seq<ToolCall>, usage: Usage, trace: seq<Event>)
    requires RunInv(offered0, req, acc, usage, trace)
    ensures match Iterate(ctx, env, req, acc, usage, trace)
            case Continued(req', _, _, t) =>
              && req'.system.None? && req'.documents == [] && req'.prompt == ""
              && LastModelOutput(t).Some?
              && req'.chatHistory == LastModelOutput(t).value.fullHistory.GetOr([]) + RepliesSinceModel(t)
              && |RepliesSinceModel(t)| > 0
              && forall d :: d in req'.tools ==> d in req.tools
            case Finished(_, _) => true
  {
    var reply := env.complete(ctx.model, req);
    if reply.Ok? {
      var output := reply.value;
      var t := trace + [ModelCalled(req, reply)];
      var start := Scan(req.tools, usage.Add(output.usage), [], output.toolCalls.GetOr([]), t);
      StartKeeps(offered0, req, acc, usage, trace, output);
      ScanKeeps(ctx, env, offered0, output, start, 0);
    }
  }

  /** The calls attempted in `trace` after its last model call. */
  ghost predicate SinceModel(trace: seq<Event>, k: int) {
    && 0 <= k < |trace| && trace[k].Invocation()
    && forall j :: k < j < |trace| ==> !trace[j].ModelCalled?
  }

  /** The messages carried into the next turn are tool-role messages, each
      answering by id one call attempted since the last model call. */
  lemma {:induction false} RepliesAnswerCalls(trace: seq<Event>)
    ensures forall m :: m in RepliesSinceModel(trace) ==>
              && m.role == "tool" && m.name.None? && m.toolCallId.Some?
              && exists k :: SinceModel(trace, k) && m.toolCallId == Some(trace[k].call.id)
  {
    if |trace| > 0 && !trace[|trace| - 1].ModelCalled? {
      var init := trace[..|trace| - 1];
      var e := trace[|trace| - 1];
      RepliesAnswerCalls(init);
      forall m | m in RepliesSinceModel(trace)
        ensures exists k :: SinceModel(trace, k) && m.toolCallId == Some(trace[k].call.id)
      {
        if m in RepliesSinceModel(init) {
          var k :| SinceModel(init, k) && m.toolCallId == Some(init[k].call.id);
          assert trace[k] == init[k];
          assert forall j :: k < j < |trace| - 1 ==> trace[j] == init[j];
          assert SinceModel(trace, k);
        } else {
          assert m in e.Reply();
          assert SinceModel(trace, |trace| - 1);
        }
      }
    }
  }

  /** The name a call named `n` attempts when `offered` is still offered:
      itself if it is offered and names a tool or an agent, none otherwise. */
  function Attempt(ctx: AgentCtx, offered: seq<FunctionDefinition>, n: string): seq<string> {
    if Offers(offered, n) && (IsToolName(ctx, n) || IsAgentName(ctx, n)) then [n] else []
  }

  /** What stays offered after a call named `n` is reached. */
  function Remaining(offered: seq<FunctionDefinition>, n: string): seq<FunctionDefinition> {
    if Offers(offered, n) then Withdraw(offered, n) else offered
  }

  /** The names, in order, that a scan of `calls` attempts when it starts with
      `offered` and nothing stops it. */
  function Attempts(ctx: AgentCtx, offered: seq<FunctionDefinition>, calls: seq<ToolCall>): seq<string>
    decreases |calls|
  {
    if |calls| == 0 then []
    else Attempt(ctx, offered, calls[0].name) + Attempts(ctx, Remaining(offered, calls[0].name), calls[1..])
  }

  /** A step that does not stop attempts the call exactly when its name is
      still offered and names a tool or an agent. */
  lemma StepAttempts(ctx: AgentCtx, env: Env, output: AgentOutput, s: Scan, i: nat)
    requires i < |s.calls|
    ensures var r := StepCall(ctx, env, output, s, i);
            r.Scanning? ==>
              && Invoked(r.scan.trace) == Invoked(s.trace) + Attempt(ctx, s.offered, s.calls[i].name)
              && r.scan.offered == Remaining(s.offered, s.calls[i].name)
              && r.scan.calls[i + 1..] == s.calls[i + 1..]
  {
    var call := s.calls[i];
    if Offers(s.offered, call.name) && IsToolName(ctx, call.name) {
      var route := Router.ToolRoute(ctx, call.name, call.args);
      Snoc(s.trace, ToolInvoked(call, route.Sent(), route.ToolReply(env)));
    } else if Offers(s.offered, call.name) && IsAgentName(ctx, call.name) && env.parsePrompt(call.args).Ok? {
      var route := Router.AgentRoute(ctx, call.name, env.parsePrompt(call.args).value, None);
      Snoc(s.trace, AgentInvoked(call, route.Sent(), route.AgentReply(env)));
    }
  }

  /** How `Attempts` unfolds at position `i` of `calls`. */
  lemma AttemptsAt(ctx: AgentCtx, offered: seq<FunctionDefinition>, calls: seq<ToolCall>, i: nat)
    requires i < |calls|
    ensures Attempts(ctx, offered, calls[i..]) ==
              Attempt(ctx, offered, calls[i].name) + Attempts(ctx, Remaining(offered, calls[i].name), calls[i + 1..])
  {
    assert calls[i..][0] == calls[i] && calls[i..][1..] == calls[i + 1..];
  }

  lemma {:induction false} ScanAttempts(ctx: AgentCtx, env: Env, output: AgentOutput, s: Scan, i: nat)
    requires i <= |s.calls|
    ensures var r := ScanFrom(ctx, env, output, s, i);
            r.Scanning? ==> Invoked(r.scan.trace) == Invoked(s.trace) + Attempts(ctx, s.offered, s.calls[i..])
    decreases |s.calls| - i
  {
    if i == |s.calls| {
      assert s.calls[i..] == [];
    } else {
      var r := StepCall(ctx, env, output, s, i);
      if r.Scanning? {
        var last := ScanFrom(ctx, env, output, r.scan, i + 1);
        assert ScanFrom(ctx, env, output, s, i) == last;
        if last.Scanning? {
          var head := Attempt(ctx, s.offered, s.calls[i].name);
          var rest := Attempts(ctx, r.scan.offered, r.scan.calls[i + 1..]);
          StepAttempts(ctx, env, output, s, i);
          AttemptsAt(ctx, s.offered, s.calls, i);
          ScanAttempts(ctx, env, output, r.scan, i + 1);
          Seqs.AppendAssoc(Invoked(s.trace), head, rest);
        }
      }
    }
  }

  /** The calls a turn attempts after its model call are, in order, the calls
      of the model's reply whose names are still offered when reached and
      name a tool or an agent, unless the turn ends the completion early
      (a failing attempt, or agent arguments that do not parse). */
  lemma TurnAttempts(ctx: AgentCtx, env: Env, offered0: seq<FunctionDefinition>, req: CompletionRequest,
                     acc: seq<ToolCall>, usage: Usage, trace: seq<Event>, output: AgentOutput)
    requires RunInv(offered0, req, acc, usage, trace)
    requires env.complete(ctx.model, req) == Ok(output)
    ensures var turn := Iterate(ctx, env, req, acc, usage, trace);
            var t := turn.trace;
            turn.Continued? || (turn.result.Ok? && !(|t| > 0 && t[|t| - 1].Failing())) ==>
              Invoked(t) == Invoked(trace) + Attempts(ctx, req.tools, output.toolCalls.GetOr([]))
  {
    var t := trace + [ModelCalled(req, Ok(output))];
    var start := Scan(req.tools, usage.Add(output.usage), [], output.toolCalls.GetOr([]), t);
    var r := ScanFrom(ctx, env, output, start, 0);
    if r.Scanning? {
      assert Iterate(ctx, env, req, acc, usage, trace).trace == r.scan.trace;
      Snoc(trace, ModelCalled(req, Ok(output)));
      assert Invoked(t) == Invoked(trace);
      ScanAttempts(ctx, env, output, start, 0);
      assert start.calls[0..] == start.calls;
    } else {
      assert Iterate(ctx, env, req, acc, usage, trace) == Finished(r.result, r.trace);
      StartKeeps(offered0, req, acc, usage, trace, output);
      ScanKeeps(ctx, env, offered0, output, start, 0);
    }
  }

  /** Withdrawing an offered name drops at least one definition. */
  lemma WithdrawShortens(offered: seq<FunctionDefinition>, name: string)
    requires Offers(offered, name)
    ensures |Withdraw(offered, name)| < |offered|
  {
    var x :| x in offered && x.name == name;
    Seqs.FilterDrops(offered, (d: FunctionDefinition) => d.name != name, x);
  }

  /** A step adds at most one tool-role message, and only when it withdraws a definition. */
  lemma StepShrinks(ctx: AgentCtx, env: Env, output: AgentOutput, s: Scan, i: nat)
    requires i < |s.calls|
    ensures var r := StepCall(ctx, env, output, s, i);
            r.Scanning? ==> && |r.scan.offered| + |r.scan.replies| <= |s.offered| + |s.replies|
                            && |s.replies| <= |r.scan.replies| <= |s.replies| + 1
  {
    if Offers(s.offered, s.calls[i].name) {
      WithdrawShortens(s.offered, s.calls[i].name);
    }
  }

  lemma {:induction false} ScanShrinks(ctx: AgentCtx, env: Env, output: AgentOutput, s: Scan, i: nat)
    requires i <= |s.calls|
    ensures var r := ScanFrom(ctx, env, output, s, i);
            r.Scanning? ==> && |r.scan.offered| + |r.scan.replies| <= |s.offered| + |s.replies|
                            && |s.replies| <= |r.scan.replies|
    decreases |s.calls| - i
  {
    if i < |s.calls| {
      StepShrinks(ctx, env, output, s, i);
      match StepCall(ctx, env, output, s, i)
      case Stopped(_, _) =>
      case Scanning(s') =>
        ScanShrinks(ctx, env, output, s', i + 1);
    }
  }

  /** A turn that continues offers strictly fewer definitions to the next one. */
  lemma TurnShrinks(ctx: AgentCtx, env: Env, req: CompletionRequest, acc: seq<ToolCall>, usage: Usage, trace: seq<Event>)
    ensures var turn := Iterate(ctx, env, req, acc, usage, trace);
            turn.Continued? ==> |turn.request.tools| < |req.tools|
  {
    var reply := env.complete(ctx.model, req);
    if reply.Ok? {
      var output := reply.value;
      var start := Scan(req.tools, usage.Add(output.usage), [], output.toolCalls.GetOr([]),
                        trace + [ModelCalled(req, reply)]);
      ScanShrinks(ctx, env, output, start, 0);
    }
  }

  lemma {:induction false} RunTerminates(ctx: AgentCtx, env: Env, req: CompletionRequest, acc: seq<ToolCall>,
                                         usage: Usage, trace: seq<Event>, fuel: nat)
    requires |req.tools| < fuel
    ensures Run(ctx, env, req, acc, usage, trace, fuel).0.Returned?
    decreases fuel
  {
    TurnShrinks(ctx, env, req, acc, usage, trace);
    match Iterate(ctx, env, req, acc, usage, trace)
    case Finished(_, _) =>
    case Continued(req', acc', usage', t) =>
      RunTerminates(ctx, env, req', acc', usage', t, fuel - 1);
  }

  /** The loop ends: every turn that continues withdraws at least one offered
      definition, so a completion given more turns than the request offers
      definitions always returns. */
  lemma Terminates(ctx: AgentCtx, env: Env, request: CompletionRequest, fuel: nat)
    requires |request.tools| < fuel
    ensures Run(ctx, env, request, [], NoUsage, [], fuel).0.Returned?
  {
    RunTerminates(ctx, env, request, [], NoUsage, [], fuel);
  }

  /** Without further turns a completion that has returned returns the same. */
  lemma {:induction false} FuelMonotone(ctx: AgentCtx, env: Env, req: CompletionRequest, acc: seq<ToolCall>,
                                        usage: Usage, trace: seq<Event>, fuel: nat, more: nat)
    requires Run(ctx, env, req, acc, usage, trace, fuel).0.Returned?
    requires fuel <= more
    ensures Run(ctx, env, req, acc, usage, trace, more) == Run(ctx, env, req, acc, usage, trace, fuel)
    decreases fuel
  {
    if fuel > 0 {
      match Iterate(ctx, env, req, acc, usage, trace)
      case Finished(_, _) =>
      case Continued(req', acc', usage', t) =>
        FuelMonotone(ctx, env, req', acc', usage', t, fuel - 1, more - 1);
    }
  }

  /** A model reply without tool calls is returned as it is, after one model call. */
  lemma CompleteWithoutCalls(ctx: AgentCtx, env: Env, request: CompletionRequest, fuel: nat, output: AgentOutput)
    requires fuel > 0
    requires env.complete(ctx.model, request) == Ok(output)
    requires output.toolCalls.None?
    ensures Run(ctx, env, request, [], NoUsage, [], fuel) == (Returned(Ok(output)), [ModelCalled(request, Ok(output))])
  {
    var t := [ModelCalled(request, Ok(output))];
    assert [] + t == t;
    var start := Scan(request.tools, NoUsage.Add(output.usage), [], [], t);
    assert ScanFrom(ctx, env, output, start, 0) == Scanning(start);
    assert NoUsage.Add(output.usage) == output.usage;
    assert output.(toolCalls := None, usage := output.usage) == output;
    assert Iterate(ctx, env, request, [], NoUsage, []) == Finished(Ok(output), t);
  }
}

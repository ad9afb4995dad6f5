/** One tool call: preparation, the after-hook chain and the termination vote (src/exec.rs). */
module Dispatch {
  import opened Wrappers
  import opened Transcript
  import opened Config
  import Json

  const ARG_PARSE_ERROR_MARKER := "__clark_arg_parse_error"
  const ARG_PARSE_RAW_MARKER := "__clark_arg_raw"

  /** What a tool body does when it is run. */
  datatype BodyOutcome =
    | Returned(output: ToolOutput)
    | BodyFailed(reason: string)
    | BodyAborted
    | BodyFatal(reason: string)

  datatype PreparedCall = Immediate(output: ToolOutput) | Ready(args: Json.Value)

  datatype FinalizedOutcome = FinalizedOutcome(output: ToolOutput, isError: bool, terminate: bool)

  /** One finished call: whether its body was started, its outcome, and the vote it casts. */
  datatype CallReport = CallReport(call: ToolCall, started: bool, outcome: FinalizedOutcome, vote: bool)

  // ----- preparation

  function DetectArgParseError(arguments: Json.Value): Option<string> {
    if !arguments.Object? then None
    else
      var error := Json.Get(arguments.fields, ARG_PARSE_ERROR_MARKER);
      var raw := Json.Get(arguments.fields, ARG_PARSE_RAW_MARKER);
      if error.Some? && error.value.String? && raw.Some? && raw.value.String? then Some(error.value.text) else None
  }

  /** The first before-hook that blocks decides. */
  function FirstBlock(hooks: seq<BeforeHook>, view: TurnView, call: ToolCall, args: Json.Value): Option<string> {
    if hooks == [] then None
    else
      var decision := hooks[0](view, call, args);
      if decision.Some? then decision else FirstBlock(hooks[1..], view, call, args)
  }

  function PrepareCall(config: LoopConfig, view: TurnView, call: ToolCall, allow: Option<set<string>>): PreparedCall {
    if call.name !in config.tools then Immediate(ErrorOutput(NotFound))
    else if allow.Some? && call.name !in allow.value then Immediate(ErrorOutput(Hidden))
    else
      var tool := config.tools[call.name];
      var parseError := DetectArgParseError(call.arguments);
      if parseError.Some? then Immediate(ErrorOutput(ArgumentParse(parseError.value)))
      else
        var args := tool.prepareArguments(call.arguments);
        var invalid := tool.validate(args);
        if invalid.Some? then Immediate(ErrorOutput(ArgumentInvalid(invalid.value)))
        else
          var blocked := FirstBlock(config.beforeHooks, view, call, args);
          if blocked.Some? then Immediate(ErrorOutput(Blocked(blocked.value))) else Ready(args)
  }

  lemma {:induction false} FirstBlockExactly(hooks: seq<BeforeHook>, view: TurnView, call: ToolCall, args: Json.Value)
    ensures FirstBlock(hooks, view, call, args).None? <==>
            forall h :: 0 <= h < |hooks| ==> hooks[h](view, call, args).None?
    ensures FirstBlock(hooks, view, call, args).Some? ==>
            exists h :: 0 <= h < |hooks| && hooks[h](view, call, args) == FirstBlock(hooks, view, call, args)
              && forall g :: 0 <= g < h ==> hooks[g](view, call, args).None?
  {
    if hooks != [] && hooks[0](view, call, args).None? {
      FirstBlockExactly(hooks[1..], view, call, args);
      assert forall h :: 0 < h < |hooks| ==> hooks[h] == hooks[1..][h - 1];
      if FirstBlock(hooks, view, call, args).Some? {
        var rest := hooks[1..];
        var h :| 0 <= h < |rest| && rest[h](view, call, args) == FirstBlock(rest, view, call, args)
          && forall g :: 0 <= g < h ==> rest[g](view, call, args).None?;
        assert hooks[h + 1](view, call, args) == FirstBlock(hooks, view, call, args);
      }
    }
  }

  /** The arguments could not be parsed: they carry the error and the raw text instead. */
  ghost predicate Unparsed(arguments: Json.Value, reason: string) {
    && arguments.Object?
    && Json.Get(arguments.fields, "__clark_arg_parse_error") == Some(Json.String(reason))
    && Json.Get(arguments.fields, "__clark_arg_raw").Some?
    && Json.Get(arguments.fields, "__clark_arg_raw").value.String?
  }

  /**
   The call may run: its tool is registered and allowed, its arguments parse and validate, and no
   before-hook blocks it.
   */
  ghost predicate Cleared(config: LoopConfig, view: TurnView, call: ToolCall, allow: Option<set<string>>) {
    && call.name in config.tools
    && (allow.Some? ==> call.name in allow.value)
    && (forall reason :: !Unparsed(call.arguments, reason))
    && var args := config.tools[call.name].prepareArguments(call.arguments);
       && config.tools[call.name].validate(args).None?
       && forall h :: 0 <= h < |config.beforeHooks| ==> config.beforeHooks[h](view, call, args).None?
  }

  /** Why a call may not run: the first cause, in the order in which they are looked at. */
  ghost predicate FirstCause(config: LoopConfig, view: TurnView, call: ToolCall, allow: Option<set<string>>,
                             why: Refusal) {
    if call.name !in config.tools then why == NotFound
    else if allow.Some? && call.name !in allow.value then why == Hidden
    else if exists reason :: Unparsed(call.arguments, reason) then
      why.ArgumentParse? && Unparsed(call.arguments, why.reason)
    else
      var args := config.tools[call.name].prepareArguments(call.arguments);
      if config.tools[call.name].validate(args).Some? then
        why == ArgumentInvalid(config.tools[call.name].validate(args).value)
      else
        exists h :: 0 <= h < |config.beforeHooks| && config.beforeHooks[h](view, call, args).Some?
          && why == Blocked(config.beforeHooks[h](view, call, args).value)
          && forall g :: 0 <= g < h ==> config.beforeHooks[g](view, call, args).None?
  }

  lemma ParseErrorExactly(arguments: Json.Value, reason: string)
    ensures DetectArgParseError(arguments) == Some(reason) <==> Unparsed(arguments, reason)
  {
    hide Json.Get;
  }

  lemma ParseErrorsExactly(arguments: Json.Value)
    ensures DetectArgParseError(arguments).None? <==> forall reason :: !Unparsed(arguments, reason)
  {
    hide Unparsed, DetectArgParseError;
    forall reason ensures DetectArgParseError(arguments) == Some(reason) <==> Unparsed(arguments, reason) {
      ParseErrorExactly(arguments, reason);
    }
    if DetectArgParseError(arguments).Some? {
      assert Unparsed(arguments, DetectArgParseError(arguments).value);
    }
  }

  /**
   Preparation, exactly: a body is started just for a call that is cleared, with the arguments its
   tool prepares; any other call is refused with an error that names the first cause and votes to
   go on.
   */
  lemma PreparedExactly(config: LoopConfig, view: TurnView, call: ToolCall, allow: Option<set<string>>)
    ensures var prepared := PrepareCall(config, view, call, allow);
            if Cleared(config, view, call, allow) then
              prepared == Ready(config.tools[call.name].prepareArguments(call.arguments))
            else
              exists why :: FirstCause(config, view, call, allow, why)
                && prepared == Immediate(ToolOutput([], true, false, Refused(why)))
  {
    var prepared := PrepareCall(config, view, call, allow);
    ParseErrorsExactly(call.arguments);
    if call.name in config.tools {
      var args := config.tools[call.name].prepareArguments(call.arguments);
      FirstBlockExactly(config.beforeHooks, view, call, args);
      var parseError := DetectArgParseError(call.arguments);
      if parseError.Some? {
        ParseErrorExactly(call.arguments, parseError.value);
      }
    }
    hide Unparsed, DetectArgParseError, FirstBlock;
    if prepared.Immediate? {
      assert prepared.output.details.Refused? && FirstCause(config, view, call, allow, prepared.output.details.why);
    }
  }

  /**
   A body is only ever started for a registered tool inside the turn's allowlist; every refusal is an
   error that votes to go on.
   */
  lemma PreparedWithinAllowlist(config: LoopConfig, view: TurnView, call: ToolCall, allow: Option<set<string>>)
    ensures PrepareCall(config, view, call, allow).Ready? ==>
              call.name in config.tools && (allow.Some? ==> call.name in allow.value)
    ensures PrepareCall(config, view, call, allow).Immediate? ==>
              PrepareCall(config, view, call, allow).output.isError
                && !PrepareCall(config, view, call, allow).output.terminate
  {
  }

  // ----- after-hooks

  function ApplyDecision(output: ToolOutput, decision: AfterDecision): ToolOutput {
    var replaced := if decision.result.Some? then decision.result.value else output;
    var marked := if decision.markError.Some? then replaced.(isError := decision.markError.value) else replaced;
    if decision.terminate.Some? then marked.(terminate := decision.terminate.value) else marked
  }

  /** The output after the first n hooks, each shown what the ones before it left. */
  function AfterChain(hooks: seq<AfterHook>, view: TurnView, call: ToolCall, args: Json.Value, output: ToolOutput,
                      n: nat): ToolOutput
    requires n <= |hooks|
    decreases n
  {
    if n == 0 then output
    else
      var before := AfterChain(hooks, view, call, args, output, n - 1);
      ApplyDecision(before, hooks[n - 1](view, call, args, before, before.isError))
  }

  function Finalized(config: LoopConfig, view: TurnView, call: ToolCall, args: Json.Value,
                     output: ToolOutput): FinalizedOutcome {
    var final := AfterChain(config.afterHooks, view, call, args, output, |config.afterHooks|);
    FinalizedOutcome(final, final.isError, final.terminate)
  }

  /** No hook turns an error into a success; the built-in pipeline has no such hook. */
  ghost predicate HooksKeepErrors(config: LoopConfig) {
    forall h: nat, view, call, args, output: ToolOutput ::
      h < |config.afterHooks| && output.isError ==>
        ApplyDecision(output, config.afterHooks[h](view, call, args, output, output.isError)).isError
  }

  lemma {:induction false} ErrorsSurvive(config: LoopConfig, view: TurnView, call: ToolCall, args: Json.Value,
                                         output: ToolOutput, n: nat)
    requires n <= |config.afterHooks| && HooksKeepErrors(config) && output.isError
    ensures AfterChain(config.afterHooks, view, call, args, output, n).isError
    decreases n
  {
    if n > 0 {
      ErrorsSurvive(config, view, call, args, output, n - 1);
    }
  }

  /**
   The program tracks `is_error` in two places, the outcome and the result inside it, and
   updates them separately; whatever the hooks decide, both end up equal to the chain's flag.
   */
  method Finalize(config: LoopConfig, view: TurnView, call: ToolCall, args: Json.Value, output: ToolOutput,
                  isError: bool)
    returns (outcome: FinalizedOutcome)
    requires isError == output.isError
    ensures outcome == Finalized(config, view, call, args, output)
    ensures outcome.isError == outcome.output.isError && outcome.terminate == outcome.output.terminate
  {
    var result, error := output, isError;
    for h := 0 to |config.afterHooks|
      invariant result == AfterChain(config.afterHooks, view, call, args, output, h)
      invariant error == result.isError
    {
      var decision := config.afterHooks[h](view, call, args, result, error);
      if decision.result.Some? {
        error := decision.result.value.isError;
        result := decision.result.value;
      }
      if decision.markError.Some? {
        error := decision.markError.value;
        result := result.(isError := decision.markError.value);
      }
      if decision.terminate.Some? {
        result := result.(terminate := decision.terminate.value);
      }
    }
    outcome := FinalizedOutcome(result, error, false);
    outcome := outcome.(terminate := outcome.output.terminate);
  }

  /** One hook's decision, field by field: its result replaces the output, and its flags override those of either. */
  ghost predicate HookStep(decision: AfterDecision, before: ToolOutput, after: ToolOutput) {
    var output := if decision.result.Some? then decision.result.value else before;
    && after.content == output.content && after.details == output.details
    && after.isError == (if decision.markError.Some? then decision.markError.value else output.isError)
    && after.terminate == (if decision.terminate.Some? then decision.terminate.value else output.terminate)
  }

  /** Each hook, in order, is shown what the ones before it made of the output. */
  ghost predicate HookSteps(hooks: seq<AfterHook>, view: TurnView, call: ToolCall, args: Json.Value,
                            outputs: seq<ToolOutput>) {
    && |outputs| == |hooks| + 1
    && forall h :: 0 <= h < |hooks| ==>
         HookStep(hooks[h](view, call, args, outputs[h], outputs[h].isError), outputs[h], outputs[h + 1])
  }

  /** The outcome is what the after-hooks make of the output. */
  ghost predicate HookedTo(config: LoopConfig, view: TurnView, call: ToolCall, args: Json.Value, output: ToolOutput,
                           outcome: FinalizedOutcome)
  {
    exists outputs ::
      && HookSteps(config.afterHooks, view, call, args, outputs)
      && outputs[0] == output
      && outcome.output == outputs[|config.afterHooks|]
      && outcome.isError == outcome.output.isError && outcome.terminate == outcome.output.terminate
  }

  function Outputs(hooks: seq<AfterHook>, view: TurnView, call: ToolCall, args: Json.Value, output: ToolOutput,
                   n: nat): (r: seq<ToolOutput>)
    requires n <= |hooks|
    ensures |r| == n + 1
    ensures forall h :: 0 <= h <= n ==> r[h] == AfterChain(hooks, view, call, args, output, h)
    decreases n
  {
    (if n == 0 then [] else Outputs(hooks, view, call, args, output, n - 1))
      + [AfterChain(hooks, view, call, args, output, n)]
  }

  /** Finalization runs the after-hooks in order, each on what the ones before it left. */
  lemma FinalizedByHooks(config: LoopConfig, view: TurnView, call: ToolCall, args: Json.Value, output: ToolOutput)
    ensures HookedTo(config, view, call, args, output, Finalized(config, view, call, args, output))
  {
    var hooks := config.afterHooks;
    var outputs := Outputs(hooks, view, call, args, output, |hooks|);
    hide Outputs;
    forall h | 0 <= h < |hooks|
      ensures HookStep(hooks[h](view, call, args, outputs[h], outputs[h].isError), outputs[h], outputs[h + 1])
    {
      assert outputs[h + 1] == AfterChain(hooks, view, call, args, output, h + 1);
    }
    assert HookSteps(hooks, view, call, args, outputs);
  }

  // ----- messages and events of a finished call

  function Report(call: ToolCall, started: bool, outcome: FinalizedOutcome): CallReport {
    CallReport(call, started, outcome, outcome.terminate)
  }

  function ToMessage(report: CallReport): AgentMessage {
    ToolResult(report.call.id, report.call.name, report.outcome.output.content,
               report.outcome.isError, report.outcome.output.details)
  }

  function Messages(reports: seq<CallReport>): (r: seq<AgentMessage>)
    ensures |r| == |reports|
  {
    if reports == [] then [] else Messages(reports[..|reports| - 1]) + [ToMessage(reports[|reports| - 1])]
  }

  function EndEvent(report: CallReport): AgentEvent {
    ToolExecutionEnd(report.call.id, report.call.name, report.outcome.output, report.outcome.isError)
  }

  function Calls(reports: seq<CallReport>): (r: seq<ToolCall>)
    ensures |r| == |reports|
  {
    if reports == [] then [] else Calls(reports[..|reports| - 1]) + [reports[|reports| - 1].call]
  }

  lemma CallsOfOne(r: CallReport)
    ensures Calls([r]) == [r.call]
  {
    assert Calls([]) == [];
  }

  lemma {:induction false} CallsAppend(a: seq<CallReport>, b: seq<CallReport>)
    ensures Calls(a + b) == Calls(a) + Calls(b)
    decreases |b|
  {
    if b == [] {
      assert a + b == a;
    } else {
      assert (a + b)[..|a + b| - 1] == a + b[..|b| - 1];
      CallsAppend(a, b[..|b| - 1]);
    }
  }

  // ----- the vote

  datatype Vote = Vote(name: string, terminate: bool)

  function Votes(reports: seq<CallReport>): (r: seq<Vote>)
    ensures |r| == |reports|
  {
    if reports == [] then []
    else
      var last := reports[|reports| - 1];
      Votes(reports[..|reports| - 1]) + [Vote(last.call.name, last.vote)]
  }

  predicate CountsTowardTerminationVote(tools: Registry, name: string) {
    name in tools ==> tools[name].countsTowardTerminationVote
  }

  /** Some counted call voted, and every counted call voted to stop. */
  predicate UnanimousStop(tools: Registry, votes: seq<Vote>) {
    && (exists i :: 0 <= i < |votes| && CountsTowardTerminationVote(tools, votes[i].name))
    && (forall i :: 0 <= i < |votes| && CountsTowardTerminationVote(tools, votes[i].name) ==> votes[i].terminate)
  }

  /** The verdict does not depend on the order of the votes. */
  lemma VoteIgnoresOrder(tools: Registry, a: seq<Vote>, b: seq<Vote>)
    requires forall v :: v in a <==> v in b
    ensures UnanimousStop(tools, a) == UnanimousStop(tools, b)
  {
    VoteOneWay(tools, a, b);
    VoteOneWay(tools, b, a);
  }

  lemma VoteOneWay(tools: Registry, a: seq<Vote>, b: seq<Vote>)
    requires forall v :: v in a <==> v in b
    ensures UnanimousStop(tools, a) ==> UnanimousStop(tools, b)
  {
    if UnanimousStop(tools, a) {
      var i :| 0 <= i < |a| && CountsTowardTerminationVote(tools, a[i].name);
      assert a[i] in b;
      forall j | 0 <= j < |b| && CountsTowardTerminationVote(tools, b[j].name) ensures b[j].terminate {
        assert b[j] in a;
      }
    }
  }

  /** A counted call that did not vote to stop keeps the run going. */
  lemma {:induction false} OneNoKeepsGoing(tools: Registry, reports: seq<CallReport>, k: nat)
    requires k < |reports|
    ensures Votes(reports)[k] == Vote(reports[k].call.name, reports[k].vote)
    ensures (CountsTowardTerminationVote(tools, reports[k].call.name) && !reports[k].vote) ==>
            !UnanimousStop(tools, Votes(reports))
    decreases |reports|
  {
    if k < |reports| - 1 {
      OneNoKeepsGoing(tools, reports[..|reports| - 1], k);
    }
  }

  /** The vote counts unless the tool is registered as one whose vote does not. */
  ghost predicate VoteCounts(tools: Registry, r: CallReport) {
    !(r.call.name in tools && !tools[r.call.name].countsTowardTerminationVote)
  }

  /** The vote, read off the reports: some vote counts, and all that count are for stopping. */
  ghost predicate AgreeToStop(tools: Registry, reports: seq<CallReport>) {
    && (exists k :: 0 <= k < |reports| && VoteCounts(tools, reports[k]))
    && (forall k :: 0 <= k < |reports| && VoteCounts(tools, reports[k]) ==> reports[k].vote)
  }

  lemma {:induction false} VotesAt(reports: seq<CallReport>, k: nat)
    requires k < |reports|
    ensures Votes(reports)[k] == Vote(reports[k].call.name, reports[k].vote)
    decreases |reports|
  {
    if k < |reports| - 1 {
      VotesAt(reports[..|reports| - 1], k);
    }
  }

  lemma VoteExactly(tools: Registry, reports: seq<CallReport>)
    ensures UnanimousStop(tools, Votes(reports)) <==> AgreeToStop(tools, reports)
  {
    var votes := Votes(reports);
    forall k: nat | k < |reports|
      ensures votes[k] == Vote(reports[k].call.name, reports[k].vote)
      ensures CountsTowardTerminationVote(tools, votes[k].name) <==> VoteCounts(tools, reports[k])
    {
      VotesAt(reports, k);
    }
    hide Votes, VoteCounts, CountsTowardTerminationVote;
    if exists i :: 0 <= i < |votes| && CountsTowardTerminationVote(tools, votes[i].name) {
      var i :| 0 <= i < |votes| && CountsTowardTerminationVote(tools, votes[i].name);
      assert VoteCounts(tools, reports[i]);
    }
    if exists k :: 0 <= k < |reports| && VoteCounts(tools, reports[k]) {
      var k :| 0 <= k < |reports| && VoteCounts(tools, reports[k]);
      assert CountsTowardTerminationVote(tools, votes[k].name);
    }
    if UnanimousStop(tools, votes) {
      forall k | 0 <= k < |reports| && VoteCounts(tools, reports[k]) ensures reports[k].vote {
        assert CountsTowardTerminationVote(tools, votes[k].name);
      }
    }
  }

  method ComputeBatchTerminate(tools: Registry, votes: seq<Vote>) returns (terminated: bool)
    ensures terminated == UnanimousStop(tools, votes)
  {
    var countedTotal, countedTerminate := 0, 0;
    for i := 0 to |votes|
      invariant 0 <= countedTerminate <= countedTotal
      invariant countedTotal > 0 <==> exists k :: 0 <= k < i && CountsTowardTerminationVote(tools, votes[k].name)
      invariant countedTerminate == countedTotal <==>
                forall k :: 0 <= k < i && CountsTowardTerminationVote(tools, votes[k].name) ==> votes[k].terminate
    {
      if CountsTowardTerminationVote(tools, votes[i].name) {
        countedTotal := countedTotal + 1;
        if votes[i].terminate {
          countedTerminate := countedTerminate + 1;
        }
      }
    }
    terminated := countedTotal > 0 && countedTerminate == countedTotal;
  }

  // ----- one call from start to finish

  /** What a body's outcome becomes when the run-wide signal is the only token it listens to. */
  datatype Executed = Output(output: ToolOutput) | Fault(error: LoopError)

  function ExecutePrepared(call: ToolCall, body: BodyOutcome): Executed {
    match body
    case Returned(output) => Output(output)
    case BodyFailed(reason) => Output(ErrorOutput(ExecutionFailed(reason)))
    case BodyAborted => Fault(AbortedRun)
    case BodyFatal(reason) => Fault(ToolFatal(call.name, reason))
  }

  /** One batch of calls to run: the bodies answer by position. */
  datatype Batch = Batch(
    config: LoopConfig,
    view: TurnView,
    allow: Option<set<string>>,
    calls: seq<ToolCall>,
    bodies: nat -> BodyOutcome)

  datatype RunOne = Finished(report: CallReport) | Died(error: LoopError)

  /** Preparation, body and finalization of one call; only a started body can end the run. */
  function RunOneCall(b: Batch, k: nat): RunOne
    requires k < |b.calls|
  {
    var call := b.calls[k];
    match PrepareCall(b.config, b.view, call, b.allow)
    case Immediate(output) => Finished(Report(call, false, Finalized(b.config, b.view, call, call.arguments, output)))
    case Ready(args) =>
      match ExecutePrepared(call, b.bodies(k))
      case Output(output) => Finished(Report(call, true, Finalized(b.config, b.view, call, args, output)))
      case Fault(error) => Died(error)
  }

  // ----- what a report says, declaratively

  /** The call ran with the arguments its tool prepared, and the report is what the after-hooks made of the output. */
  ghost predicate Ran(b: Batch, call: ToolCall, output: ToolOutput, r: CallReport) {
    && Cleared(b.config, b.view, call, b.allow)
    && r.call == call && r.started && r.vote == r.outcome.terminate
    && HookedTo(b.config, b.view, call, b.config.tools[call.name].prepareArguments(call.arguments), output, r.outcome)
  }

  /** The runtime answered for the call, which did not run: an error that says why, as the after-hooks made it. */
  ghost predicate AnsweredFor(b: Batch, call: ToolCall, why: Refusal, r: CallReport) {
    && r.call == call && !r.started
    && HookedTo(b.config, b.view, call, call.arguments, ToolOutput([], true, false, Refused(why)), r.outcome)
  }

  /** The call may not run, for the first cause there is. */
  ghost predicate TurnedDown(b: Batch, call: ToolCall, r: CallReport) {
    && !Cleared(b.config, b.view, call, b.allow) && r.vote == r.outcome.terminate
    && exists why :: FirstCause(b.config, b.view, call, b.allow, why) && AnsweredFor(b, call, why, r)
  }

  /** The body hands back this output; a failure is an error result that says why. */
  ghost predicate Gives(body: BodyOutcome, output: ToolOutput) {
    || (body.Returned? && output == body.output)
    || (body.BodyFailed? && output == ToolOutput([], true, false, Refused(ExecutionFailed(body.reason))))
  }

  /** The body ends the run, as an abort or as the tool's own fatal error. */
  ghost predicate EndsRun(body: BodyOutcome, call: ToolCall, error: LoopError) {
    || (body.BodyAborted? && error == AbortedRun)
    || (body.BodyFatal? && error == ToolFatal(call.name, body.reason))
  }

  lemma BodyGivesOrEnds(call: ToolCall, body: BodyOutcome)
    ensures match ExecutePrepared(call, body)
            case Output(output) => Gives(body, output)
            case Fault(error) => EndsRun(body, call, error)
  {
  }

  /** One call from start to finish, exactly. */
  ghost predicate OneCall(b: Batch, k: nat, result: RunOne)
    requires k < |b.calls|
  {
    match result
    case Finished(r) =>
      TurnedDown(b, b.calls[k], r) || exists output :: Gives(b.bodies(k), output) && Ran(b, b.calls[k], output, r)
    case Died(error) => Cleared(b.config, b.view, b.calls[k], b.allow) && EndsRun(b.bodies(k), b.calls[k], error)
  }

  lemma OneCallExactly(b: Batch, k: nat)
    requires k < |b.calls|
    ensures OneCall(b, k, RunOneCall(b, k))
  {
    var call, result := b.calls[k], RunOneCall(b, k);
    PreparedExactly(b.config, b.view, call, b.allow);
    BodyGivesOrEnds(call, b.bodies(k));
    hide Cleared, FirstCause, PrepareCall, Finalized, HookedTo, Gives, EndsRun, ExecutePrepared;
    match PrepareCall(b.config, b.view, call, b.allow) {
      case Immediate(output) =>
        FinalizedByHooks(b.config, b.view, call, call.arguments, output);
        assert TurnedDown(b, call, result.report);
      case Ready(args) =>
        match ExecutePrepared(call, b.bodies(k)) {
          case Output(output) =>
            FinalizedByHooks(b.config, b.view, call, args, output);
            assert Ran(b, call, output, result.report);
          case Fault(error) =>
        }
    }
  }

  /** A finished call starts at most once, right before its only end, and only when its body ran. */
  function CallEvents(report: CallReport): seq<AgentEvent> {
    (if report.started then [ToolExecutionStart(report.call)] else []) + [EndEvent(report)]
  }

  method RunOneToolCall(b: Batch, k: nat, sink: EventSink) returns (result: RunOne)
    requires k < |b.calls|
    modifies sink
    ensures result == RunOneCall(b, k)
    ensures result.Finished? ==>
            result.report.call == b.calls[k] && result.report.vote == result.report.outcome.terminate
    ensures sink.log == old(sink.log)
                      + match result
                        case Finished(report) => CallEvents(report)
                        case Died(_) => [ToolExecutionStart(b.calls[k])]
  {
    var call := b.calls[k];
    var outcome: FinalizedOutcome;
    var started := false;
    match PrepareCall(b.config, b.view, call, b.allow) {
      case Immediate(output) =>
        PreparedWithinAllowlist(b.config, b.view, call, b.allow);
        outcome := Finalize(b.config, b.view, call, call.arguments, output, true);
      case Ready(args) =>
        sink.Emit(ToolExecutionStart(call));
        started := true;
        match ExecutePrepared(call, b.bodies(k)) {
          case Fault(error) =>
            return Died(error);
          case Output(output) =>
            outcome := Finalize(b.config, b.view, call, args, output, output.isError);
        }
    }
    sink.Emit(ToolExecutionEnd(call.id, call.name, outcome.output, outcome.isError));
    result := Finished(CallReport(call, started, outcome, outcome.terminate));
  }

  predicate AbortsSiblings(tools: Registry, name: string) {
    name in tools && tools[name].abortsSiblingsOnError
  }
}

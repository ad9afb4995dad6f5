/**
 Tools, plugins and loop settings. Every plugin hook is a pure function of what the loop shows
 it; the environment-driven parts (provider answers, tool bodies, message sources) are not here
 but in the scripts handed to the loop.
 */
module Config {
  import opened Wrappers
  import opened Transcript
  import Json

  datatype Tool = Tool(
    countsTowardCallLimit: bool,
    parallelSafePerTurn: bool,
    countsTowardTerminationVote: bool,
    abortsSiblingsOnError: bool,
    requiresExclusiveSandbox: bool,
    maxResultChars: Option<Usize>,
    prepareArguments: Json.Value -> Json.Value,
    validate: Json.Value -> Option<string>)

  type Registry = map<string, Tool>

  const USIZE_MAX: nat := 0xFFFF_FFFF_FFFF_FFFF

  /** The source's usize, at 64 bits. */
  type Usize = n: nat | n <= USIZE_MAX

  /** What hooks see of the turn they run in. */
  datatype TurnView = TurnView(assistant: AgentMessage, messages: seq<AgentMessage>)

  datatype AfterDecision = AfterDecision(result: Option<ToolOutput>, markError: Option<bool>, terminate: Option<bool>)

  /** Some(reason) blocks the call. */
  type BeforeHook = (TurnView, ToolCall, Json.Value) -> Option<string>
  type AfterHook = (TurnView, ToolCall, Json.Value, ToolOutput, bool) -> AfterDecision

  datatype GateView = GateView(iteration: nat, messages: seq<AgentMessage>)
  datatype ToolGateClass = Required | Advisory
  datatype ToolGate = ToolGate(
    name: string,
    priority: int,
    gateClass: ToolGateClass,
    allowlist: GateView -> Option<set<string>>,
    suppressesAdvisory: GateView -> bool)

  datatype Fallback = Fallback(tool: string, eager: bool, nudge: bool)

  const U32_MAX: nat := 0xFFFF_FFFF

  type U32 = n: nat | n <= U32_MAX

  datatype LoopConfig = LoopConfig(
    tools: Registry,
    maxToolCallsPerTurn: Option<nat>,
    sequential: bool,
    // the protocol policy rewrites calls in place: the new call at each position of the batch
    rewriteCall: (seq<ToolCall>, nat) -> ToolCall,
    beforeHooks: seq<BeforeHook>,
    afterHooks: seq<AfterHook>,
    transforms: seq<seq<AgentMessage> -> seq<AgentMessage>>,
    gates: seq<ToolGate>,
    maxOutputTokens: Option<U32>,
    reasoning: ReasoningEffort,
    // the n-th call of the overflow-recovery hook
    overflowRecovery: Option<(nat, seq<AgentMessage>) -> seq<AgentMessage>>,
    estimate: seq<AgentMessage> -> nat,
    fallback: Option<Fallback>,
    terminalToolNames: set<string>,
    recoveryPrompt: (seq<AgentMessage>, nat) -> string)

  /** The protocol policy's rewriting of one batch; a slice keeps its length. */
  function NormalizeCalls(config: LoopConfig, calls: seq<ToolCall>): (r: seq<ToolCall>)
    ensures |r| == |calls|
  {
    seq(|calls|, (i: nat) => config.rewriteCall(calls, i))
  }

  /** The policy renames tools and arguments but never a call id. */
  ghost predicate KeepsCallIds(config: LoopConfig) {
    forall calls: seq<ToolCall>, i: nat :: i < |calls| ==> config.rewriteCall(calls, i).id == calls[i].id
  }
}

/**
 The conversation transcript, the results tools hand back, and the events a run reports.

 Timestamps, provider usage blocks, narration and error prose are left out; a result that the
 runtime itself writes carries a `Refusal` in place of its prose. Tool-result text is kept as
 UTF-8 bytes because the clipping transform counts bytes.
 */
module Transcript {
  import opened Wrappers
  import Json
  import Utf8

  datatype ToolCall = ToolCall(id: string, name: string, arguments: Json.Value)

  datatype AssistantBlock =
    | Text(text: string)
    | Thinking(text: string)
    | Reasoning(text: string)
    | ReasoningDetails(details: seq<Json.Value>)
    | Call(call: ToolCall)

  datatype StopReason = EndTurn | ToolUse | MaxTokens | Error | Aborted | Other

  datatype ResultBlock = TextBlock(bytes: Utf8.Text) | ImageBlock(source: string)

  /** Why the runtime answered a call itself instead of the tool body. */
  datatype Refusal =
    | NotFound
    | Hidden
    | ArgumentParse(reason: string)
    | ArgumentInvalid(reason: string)
    | Blocked(reason: string)
    | ExecutionFailed(reason: string)
    | SiblingAborted
    | SiblingFailed(failedTool: string)
    | OverCap

  datatype Details = NoDetails | Payload(value: Json.Value) | Refused(why: Refusal)

  datatype AgentMessage =
    | System(content: string)
    | User(content: string)
    | Assistant(blocks: seq<AssistantBlock>, stopReason: StopReason)
    | ToolResult(toolCallId: string, toolName: string, result: seq<ResultBlock>, isError: bool, details: Details)
    | Custom(kind: string, payload: Json.Value)

  /** What a tool body, or the runtime in its place, produced for one call. */
  datatype ToolOutput = ToolOutput(content: seq<ResultBlock>, isError: bool, terminate: bool, details: Details)

  function ErrorOutput(why: Refusal): ToolOutput {
    ToolOutput([], true, false, Refused(why))
  }

  datatype StreamErrorKind =
    | Transient
    | ProviderRateLimited
    | ZeroOutputTransport
    | Fatal
    | InconsistentToolHistory
    | Empty
    | AbortedStream
    | ContextOverflow

  datatype LoopError =
    | Stream(kind: StreamErrorKind)
    | AbortedRun
    | ToolFatal(tool: string, reason: string)
    | InvalidContinuation

  datatype ReasoningEffort = NoReasoning | Minimal | Low | Medium | High | XHigh

  /**
   The events of a run. `SteeringPolled` and `FollowUpPolled` are not events of the program:
   they record, in the same log, each time the loop asks its message sources.
   */
  datatype AgentEvent =
    | AgentStart
    | RunIdentified(identity: string)
    | TurnStart
    | ProviderRequestPrepared(iteration: nat, messages: seq<AgentMessage>, allow: Option<set<string>>,
                              cap: Option<nat>, reasoning: ReasoningEffort)
    | OutputTokensEscalation(attempt: nat, prevCap: nat, newCap: nat)
    | HistoryRecovered(before: seq<AgentMessage>, after: seq<AgentMessage>)
    | ToolExecutionStart(call: ToolCall)
    | ToolExecutionEnd(toolCallId: string, toolName: string, output: ToolOutput, isError: bool)
    | TurnEnd(message: AgentMessage, toolResults: seq<AgentMessage>)
    | SteeringPolled(messages: seq<AgentMessage>)
    | FollowUpPolled(messages: seq<AgentMessage>)
    | AgentEnd(messages: seq<AgentMessage>)

  /** The tool calls of an assistant's blocks in source order. */
  function BlockCalls(blocks: seq<AssistantBlock>): seq<ToolCall> {
    if blocks == [] then []
    else (if blocks[0].Call? then [blocks[0].call] else []) + BlockCalls(blocks[1..])
  }

  function ToolCalls(message: AgentMessage): seq<ToolCall> {
    if message.Assistant? then BlockCalls(message.blocks) else []
  }

  function PlainText(blocks: seq<AssistantBlock>): string {
    if blocks == [] then []
    else (if blocks[0].Text? then blocks[0].text else []) + PlainText(blocks[1..])
  }

  function CallIds(calls: seq<ToolCall>): (r: seq<string>)
    ensures |r| == |calls|
  {
    seq(|calls|, i requires 0 <= i < |calls| => calls[i].id)
  }

  /** How many of the calls carry the id. */
  function CountId(calls: seq<ToolCall>, id: string): nat {
    if calls == [] then 0 else (if calls[0].id == id then 1 else 0) + CountId(calls[1..], id)
  }

  lemma {:induction false} CountIdAppend(a: seq<ToolCall>, b: seq<ToolCall>, id: string)
    ensures CountId(a + b, id) == CountId(a, id) + CountId(b, id)
  {
    if a == [] {
      assert a + b == b;
    } else {
      assert (a + b)[1..] == a[1..] + b;
      CountIdAppend(a[1..], b, id);
    }
  }

  /** The sink every event is delivered to. */
  class EventSink {
    var log: seq<AgentEvent>

    constructor ()
      ensures log == []
    {
      log := [];
    }

    method Emit(event: AgentEvent)
      modifies this
      ensures log == old(log) + [event]
    {
      log := log + [event];
    }
  }

  /** The live conversation the loop works on. */
  class AgentContext {
    var messages: seq<AgentMessage>

    constructor (initial: seq<AgentMessage>)
      ensures messages == initial
    {
      messages := initial;
    }

    method Push(message: AgentMessage)
      modifies this
      ensures messages == old(messages) + [message]
    {
      messages := messages + [message];
    }
  }
}

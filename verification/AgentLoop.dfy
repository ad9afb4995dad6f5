/** The agent loop (src/run.rs): turns, steering, follow-ups, termination. */
module AgentLoop {
  import opened Wrappers
  import opened Transcript
  import opened Config
  import opened Dispatch
  import opened Sequential
  import opened BatchExecution
  import opened Streaming
  import ThinkingFilter
  import Parallel
  import opened ToolCallCap
  import Utf8
  import Gates

  /**
   What the environment does around one turn: whether the run is cancelled before it, how the
   provider answers, how the tools behave, and what the message sources would hand out after it.
   */
  datatype TurnScript = TurnScript(
    cancelled: bool,
    attempts: seq<Attempt>,
    batch: BatchScript,
    clock: nat,
    steering: seq<AgentMessage>,
    followUp: seq<AgentMessage>)

  // ----- a call-free assistant turn

  /** Whether the allowlist holds the fallback tool and otherwise only terminal tools. */
  predicate IsTerminalOnlyAllowlist(allow: Option<set<string>>, terminalTool: string, terminalNames: set<string>) {
    && allow.Some?
    && terminalTool in allow.value
    && forall tool :: tool in allow.value ==> tool == terminalTool || tool in terminalNames
  }

  function PlainAssistantText(message: AgentMessage): Option<string> {
    if !message.Assistant? then None
    else
      var text := ThinkingFilter.Trim(ThinkingFilter.StripThinkingTags(PlainText(message.blocks)));
      if text == [] then None else Some(text)
  }

  function SynthesizePlainTextTerminalResult(config: LoopConfig, fallback: Fallback, assistant: AgentMessage,
                                             allow: Option<set<string>>, clock: nat): Option<AgentMessage> {
    if !fallback.eager && !IsTerminalOnlyAllowlist(allow, fallback.tool, config.terminalToolNames) then None
    else
      match PlainAssistantText(assistant)
      case None => None
      case Some(text) =>
        Some(ToolResult("plain_text_terminal_fallback_" + Decimal(clock), fallback.tool, [TextBlock(Utf8.Encode(text))],
                        false, NoDetails))
  }

  /** How the loop answers a turn without tool calls. */
  datatype Reaction = Nothing | Nudge(message: AgentMessage) | Deliver(result: AgentMessage)

  function ReactToPlainText(config: LoopConfig, assistant: AgentMessage, allow: Option<set<string>>,
                            messages: seq<AgentMessage>, iteration: nat, clock: nat): Reaction {
    match config.fallback
    case None => Nothing
    case Some(fallback) =>
      var narrowed := IsTerminalOnlyAllowlist(allow, fallback.tool, config.terminalToolNames);
      if fallback.nudge && fallback.eager && !narrowed then Nudge(System(config.recoveryPrompt(messages, iteration)))
      else
        match SynthesizePlainTextTerminalResult(config, fallback, assistant, allow, clock)
        case None => Nothing
        case Some(result) => Deliver(result)
  }

  // ----- turns

  /** One accepted turn, with everything it did. */
  datatype Turn = Turn(
    injected: seq<AgentMessage>,
    assistant: AgentMessage,
    allow: Option<set<string>>,
    shrunk: seq<seq<AgentMessage>>,
    streamEvents: seq<AgentEvent>,
    sequential: bool,
    reports: seq<CallReport>,
    reaction: Reaction,
    terminated: bool,
    steering: Option<seq<AgentMessage>>,
    followUp: Option<seq<AgentMessage>>)

  function Results(t: Turn): seq<AgentMessage> {
    if t.reaction.Deliver? then [t.reaction.result] else Messages(t.reports)
  }

  function TurnMessages(t: Turn): seq<AgentMessage> {
    t.injected + [t.assistant] + Results(t) + (if t.reaction.Nudge? then [t.reaction.message] else [])
  }

  /** The turn asks for another provider call of its own accord. */
  predicate GoesOn(t: Turn) {
    t.reaction.Nudge? || (ToolCalls(t.assistant) != [] && !t.terminated)
  }

  function PollEvents(t: Turn): seq<AgentEvent> {
    (if t.steering.Some? then [SteeringPolled(t.steering.value)] else [])
    + (if t.followUp.Some? then [FollowUpPolled(t.followUp.value)] else [])
  }

  /** The events of a turn, from the request to the polls after it. */
  function BodyEvents(t: Turn): seq<AgentEvent> {
    t.streamEvents + ToolEvents(t.sequential, t.reports) + [TurnEnd(t.assistant, Results(t))] + PollEvents(t)
  }

  /** What the turn's polls handed out, and so what the next turn injects. */
  function Handed(t: Turn): seq<AgentMessage> {
    (if t.steering.Some? then t.steering.value else []) + (if t.followUp.Some? then t.followUp.value else [])
  }

  /**
   The live history after a turn taken on `messages`; a recovery replaces what was there before its
   assistant message.
   */
  function Live(messages: seq<AgentMessage>, t: Turn): seq<AgentMessage> {
    LeftBehind(messages + t.injected, t.shrunk) + [t.assistant]
    + (Results(t) + (if t.reaction.Nudge? then [t.reaction.message] else []))
  }

  function LiveAfter(messages: seq<AgentMessage>, turns: seq<Turn>): seq<AgentMessage> {
    if turns == [] then messages else Live(LiveAfter(messages, turns[..|turns| - 1]), turns[|turns| - 1])
  }

  function AllMessages(turns: seq<Turn>): seq<AgentMessage> {
    if turns == [] then [] else AllMessages(turns[..|turns| - 1]) + TurnMessages(turns[|turns| - 1])
  }

  /** Every turn but the first opens with its own TurnStart; the first one's is part of the run's opening. */
  function OpeningEvents(index: nat): seq<AgentEvent> {
    if index == 0 then [] else [TurnStart]
  }

  function AllEvents(turns: seq<Turn>): seq<AgentEvent> {
    if turns == [] then []
    else AllEvents(turns[..|turns| - 1]) + OpeningEvents(|turns| - 1) + BodyEvents(turns[|turns| - 1])
  }

  // ----- the loop as a state machine

  /** `Ended`: returned normally. `Halted`: returned an error. `Stalled`: waiting for the environment inside a turn. */
  datatype Phase = Going | Ended | Halted(error: LoopError) | Stalled

  datatype LoopState = LoopState(
    messages: seq<AgentMessage>,
    produced: seq<AgentMessage>,
    pending: seq<AgentMessage>,
    hasMore: bool,
    hookCalls: nat,
    turns: seq<Turn>,
    events: seq<AgentEvent>,
    phase: Phase)

  function Begin(messages: seq<AgentMessage>, produced: seq<AgentMessage>, steering: seq<AgentMessage>): LoopState {
    LoopState(messages, produced, steering, true, 0, [], [SteeringPolled(steering)], Going)
  }

  /** The state once the pending messages are in and the provider has been asked. */
  function Streamed(config: LoopConfig, s: LoopState, t: TurnScript): LoopState {
    var run := Recover(config, s.messages + s.pending, |s.turns|, t.attempts, s.hookCalls);
    s.(messages := run.messages, produced := s.produced + s.pending, hookCalls := run.hookCalls,
       events := s.events + OpeningEvents(|s.turns|) + run.events)
  }

  /** A turn that is complete up to its polls enters the record; steering is asked unless it terminated. */
  function Close(s: LoopState, turn: Turn, t: TurnScript): LoopState {
    var steering := if turn.terminated then None else Some(t.steering);
    var closed := turn.(steering := steering);
    var tail := Results(turn) + (if turn.reaction.Nudge? then [turn.reaction.message] else []);
    s.(messages := s.messages + tail,
       produced := s.produced + tail,
       pending := if steering.Some? then steering.value else [],
       hasMore := GoesOn(turn),
       turns := s.turns + [closed],
       events := s.events + [TurnEnd(turn.assistant, Results(turn))]
               + (if steering.Some? then [SteeringPolled(steering.value)] else []))
  }

  function BatchOf(config: LoopConfig, s: LoopState, assistant: AgentMessage, allow: Option<set<string>>,
                   t: TurnScript): Batch {
    Batch(config, TurnView(assistant, s.messages), allow, ToolCalls(assistant), t.batch.bodies)
  }

  /** One pass through the body of the inner loop. */
  function TakeTurn(config: LoopConfig, s: LoopState, t: TurnScript): LoopState {
    if t.cancelled then s.(phase := Halted(AbortedRun))
    else
      var run := Recover(config, s.messages + s.pending, |s.turns|, t.attempts, s.hookCalls);
      var u := Streamed(config, s, t);
      match run.outcome
      case Awaiting => u.(phase := Stalled)
      case Rejected(error, _) => u.(phase := Halted(error))
      case Accepted(assistant, allow) => Act(config, s.pending, run, u, assistant, allow, t)
  }

  /** What follows an accepted assistant message. */
  function Act(config: LoopConfig, injected: seq<AgentMessage>, run: StreamRun, u: LoopState, assistant: AgentMessage,
               allow: Option<set<string>>, t: TurnScript): LoopState {
    var v := u.(messages := u.messages + [assistant], produced := u.produced + [assistant]);
    if ToolCalls(assistant) == [] then
      var reaction := ReactToPlainText(config, assistant, allow, v.messages, |u.turns|, t.clock);
      Close(v, Turn(injected, assistant, allow, run.shrunk, run.events, true, [], reaction, reaction.Deliver?, None,
                    None), t)
    else
      var b := BatchOf(config, v, assistant, allow, t);
      var batch := RunBatch(b, t.batch.schedule);
      var w := v.(events := v.events + batch.events);
      match batch.verdict
      case Broke(error) => w.(phase := Halted(error))
      case Waiting => w.(phase := Stalled)
      case Completed(terminate) =>
        var sequential := RunsSequentially(config, Runnable(b).calls);
        Close(w, Turn(injected, assistant, allow, run.shrunk, run.events, sequential, batch.reports, Nothing, terminate,
                      None, None), t)
  }

  /** Where the inner loop stops: follow-ups are asked unless the last turn terminated, and without any the run ends. */
  function Settle(s: LoopState, t: TurnScript): LoopState {
    if !s.phase.Going? || s.hasMore || s.pending != [] || s.turns == [] then s
    else
      var last := s.turns[|s.turns| - 1];
      if last.terminated then s.(phase := Ended)
      else
        var u := s.(turns := s.turns[..|s.turns| - 1] + [last.(followUp := Some(t.followUp))],
                    events := s.events + [FollowUpPolled(t.followUp)]);
        if t.followUp == [] then u.(phase := Ended)
        else u.(pending := t.followUp, hasMore := true)
  }

  /** The loop after the first n turn scripts. */
  function RunTo(config: LoopConfig, start: LoopState, script: seq<TurnScript>, n: nat): LoopState
    requires n <= |script|
    decreases n
  {
    if n == 0 then start
    else
      var s := RunTo(config, start, script, n - 1);
      if s.phase.Going? then Settle(TakeTurn(config, s, script[n - 1]), script[n - 1]) else s
  }

  /** The events of a run up to a state; a normal return announces the produced messages. */
  function Trace(s: LoopState): seq<AgentEvent> {
    s.events + (if s.phase.Ended? then [AgentEnd(s.produced)] else [])
  }

  // ----- laws of one pass

  /** The calls of an assistant that are run, after the policy's rewrite and within the cap. */
  function RunCalls(config: LoopConfig, assistant: AgentMessage): seq<ToolCall> {
    Executable(config.tools, NormalizeCalls(config, ToolCalls(assistant)), config.maxToolCallsPerTurn)
  }

  function DeferredCallsOf(config: LoopConfig, assistant: AgentMessage): seq<ToolCall> {
    Deferred(config.tools, NormalizeCalls(config, ToolCalls(assistant)), config.maxToolCallsPerTurn)
  }

  /** The calls are answered once each: those that ran in source order, then those the cap deferred, in source order. */
  predicate AnswersEach(config: LoopConfig, t: Turn) {
    Calls(t.reports) == RunCalls(config, t.assistant) + DeferredCallsOf(config, t.assistant)
  }

  /**
   The reaction, exactly: a nudge when the fallback nudges eagerly and work tools are visible;
   otherwise a delivery of the assistant's text under the fallback tool's name when there is text
   and the fallback is eager or only terminal tools were allowed; otherwise none.
   */
  predicate Reacted(config: LoopConfig, t: Turn) {
    if ToolCalls(t.assistant) != [] || config.fallback.None? then t.reaction.Nothing?
    else
      var fallback, text := config.fallback.value, PlainAssistantText(t.assistant);
      var narrowed := IsTerminalOnlyAllowlist(t.allow, fallback.tool, config.terminalToolNames);
      if fallback.nudge && fallback.eager && !narrowed then t.reaction.Nudge? && t.reaction.message.System?
      else if (fallback.eager || narrowed) && text.Some? then
        && t.reaction.Deliver? && t.reaction.result.ToolResult?
        && t.reaction.result.toolName == fallback.tool && !t.reaction.result.isError
        && t.reaction.result.result == [TextBlock(Utf8.Encode(text.value))]
      else t.reaction.Nothing?
  }

  /** What ends a run: a delivered fallback, or a batch that deferred no call and whose reports vote to stop. */
  predicate StopsRun(config: LoopConfig, t: Turn) {
    || t.reaction.Deliver?
    || (ToolCalls(t.assistant) != [] && DeferredCallsOf(config, t.assistant) == []
        && UnanimousStop(config.tools, Votes(t.reports)))
  }

  /**
   Every request of the stream was made for one of the turn's histories, and the last of the
   stream's events is a request, made under the allowlist its gates composed.
   */
  ghost predicate Requested(config: LoopConfig, histories: seq<seq<AgentMessage>>, streamEvents: seq<AgentEvent>,
                            allow: Option<set<string>>, iteration: nat)
  {
    RequestsFaithful(config, histories, iteration, streamEvents)
    && streamEvents != []
    && var e := streamEvents[|streamEvents| - 1];
       e.ProviderRequestPrepared? && e.iteration == iteration && e.allow == allow
       && allow == Gates.Allowlist(config.gates, GateView(iteration, e.messages))
  }

  /** Every body that is started is that of a call cleared to run. */
  ghost predicate StartsPermitted(config: LoopConfig, view: TurnView, allow: Option<set<string>>,
                                  events: seq<AgentEvent>) {
    forall call :: ToolExecutionStart(call) in events ==> Cleared(config, view, call, allow)
  }

  /** What hooks see of a turn begun with this history: its assistant message, already part of the live history. */
  function SeenOf(history: seq<AgentMessage>, shrunk: seq<seq<AgentMessage>>, assistant: AgentMessage): TurnView {
    TurnView(assistant, LeftBehind(history, shrunk) + [assistant])
  }

  /**
   What the turn did, given the history it began with: its requests, the bodies it started, and the
   prompt of a nudge, made from the live history, or the id of a delivered result.
   */
  ghost predicate Performed(config: LoopConfig, history: seq<AgentMessage>, t: Turn, iteration: nat) {
    var view := SeenOf(history, t.shrunk, t.assistant);
    && Requested(config, [history] + t.shrunk, t.streamEvents, t.allow, iteration)
    && StartsPermitted(config, view, t.allow, ToolEvents(t.sequential, t.reports))
    && (t.reaction.Nudge? ==> t.reaction.message == System(config.recoveryPrompt(view.messages, iteration)))
    && (t.reaction.Deliver? ==>
          && t.reaction.result.ToolResult? && t.reaction.result.details == NoDetails
          && exists clock: nat :: t.reaction.result.toolCallId == "plain_text_terminal_fallback_" + Decimal(clock))
  }

  /** What every accepted turn looks like. */
  ghost predicate TurnShape(config: LoopConfig, t: Turn) {
    && StreamEventsOnly(t.streamEvents)
    && (if ToolCalls(t.assistant) == [] then t.reports == []
        else AnswersEach(config, t) && t.sequential == RunsSequentially(config, RunCalls(config, t.assistant)))
    && Reacted(config, t)
    && (t.terminated <==> StopsRun(config, t))
    && (t.steering.None? <==> t.terminated)
    && (t.followUp.Some? ==> Quiet(t))
  }

  /** The turn neither ended the run nor asked to go on, and steering had nothing. */
  predicate Quiet(t: Turn) {
    !t.terminated && !GoesOn(t) && t.steering == Some([])
  }

  /** What the polls after a turn hand out is no part of what the turn itself did. */
  lemma PollsAside(config: LoopConfig, t: Turn, steering: Option<seq<AgentMessage>>,
                   followUp: Option<seq<AgentMessage>>)
    ensures var u := t.(steering := steering, followUp := followUp);
            && AnswersEach(config, u) == AnswersEach(config, t) && Reacted(config, u) == Reacted(config, t)
            && StopsRun(config, u) == StopsRun(config, t)
            && Results(u) == Results(t) && GoesOn(u) == GoesOn(t) && TurnMessages(u) == TurnMessages(t)
            && (forall messages :: Live(messages, u) == Live(messages, t))
            && (forall history, iteration ::
                  Performed(config, history, u, iteration) == Performed(config, history, t, iteration))
  {
  }

  /** v is s with one more turn. */
  ghost predicate Recorded(config: LoopConfig, s: LoopState, v: LoopState, turn: Turn) {
    && TurnShape(config, turn)
    && Performed(config, s.messages + s.pending, turn, |s.turns|)
    && turn.injected == s.pending
    && v.turns == s.turns + [turn]
    && v.produced == s.produced + TurnMessages(turn)
    && v.messages == Live(s.messages, turn)
    && v.events == s.events + OpeningEvents(|s.turns|) + BodyEvents(turn)
  }

  lemma RegroupMessages(m: seq<AgentMessage>, injected: seq<AgentMessage>, a: AgentMessage, tail: seq<AgentMessage>,
                        nudge: seq<AgentMessage>)
    ensures (m + injected) + [a] + (tail + nudge) == m + (injected + [a] + tail + nudge)
  {
  }

  lemma RegroupEvents(e: seq<AgentEvent>, o: seq<AgentEvent>, r: seq<AgentEvent>, b: seq<AgentEvent>,
                      end: seq<AgentEvent>, polls: seq<AgentEvent>)
    ensures (((e + o + r) + b) + end) + polls == e + o + (r + b + end + polls)
    ensures (((e + o + r) + b) + end) + [] == e + o + (r + b + end + [])
  {
  }

  /** The turn with the steering poll that closes it. */
  function Closed(turn: Turn, t: TurnScript): Turn {
    turn.(steering := if turn.terminated then None else Some(t.steering))
  }

  lemma CloseEvents(s: LoopState, w: LoopState, turn: Turn, t: TurnScript)
    requires turn.steering.None? && turn.followUp.None?
    requires w.events == ((s.events + OpeningEvents(|s.turns|) + turn.streamEvents)
                          + ToolEvents(turn.sequential, turn.reports))
    ensures Close(w, turn, t).events == s.events + OpeningEvents(|s.turns|) + BodyEvents(Closed(turn, t))
  {
    var polls := if turn.terminated then [] else [SteeringPolled(t.steering)];
    assert Results(Closed(turn, t)) == Results(turn);
    NothingAdded(polls);
    assert PollEvents(Closed(turn, t)) == polls;
    hide ToolEvents, Results, OpeningEvents, PollEvents;
    RegroupEvents(s.events, OpeningEvents(|s.turns|), turn.streamEvents, ToolEvents(turn.sequential, turn.reports),
                  [TurnEnd(turn.assistant, Results(turn))], polls);
  }

  lemma CloseMessages(s: LoopState, w: LoopState, turn: Turn, t: TurnScript)
    requires turn.injected == s.pending && w.produced == s.produced + s.pending + [turn.assistant]
    requires w.messages == LeftBehind(s.messages + s.pending, turn.shrunk) + [turn.assistant]
    ensures Close(w, turn, t).produced == s.produced + TurnMessages(Closed(turn, t))
    ensures Close(w, turn, t).messages == Live(s.messages, Closed(turn, t))
  {
    var nudge := if turn.reaction.Nudge? then [turn.reaction.message] else [];
    assert Results(Closed(turn, t)) == Results(turn);
    hide Results, LeftBehind;
    RegroupMessages(s.produced, s.pending, turn.assistant, Results(turn), nudge);
  }

  lemma ClosePolls(w: LoopState, turn: Turn, t: TurnScript)
    requires turn.followUp.None?
    ensures var v, closed := Close(w, turn, t), Closed(turn, t);
            v.turns == w.turns + [closed] && v.pending == Handed(closed) && v.hasMore == GoesOn(closed)
              && v.phase == w.phase
  {
    hide Results;
    if !turn.terminated {
      NothingAdded(t.steering);
    }
  }

  lemma CloseRecords(config: LoopConfig, s: LoopState, w: LoopState, turn: Turn, t: TurnScript)
    requires turn.injected == s.pending && turn.steering.None? && turn.followUp.None?
    requires TurnShape(config, Closed(turn, t))
    requires Performed(config, s.messages + s.pending, turn, |s.turns|)
    requires w.turns == s.turns && w.produced == s.produced + s.pending + [turn.assistant]
    requires w.messages == LeftBehind(s.messages + s.pending, turn.shrunk) + [turn.assistant]
    requires w.events == ((s.events + OpeningEvents(|s.turns|) + turn.streamEvents)
                          + ToolEvents(turn.sequential, turn.reports))
    ensures var v, closed := Close(w, turn, t), Closed(turn, t);
            && Recorded(config, s, v, closed)
            && v.pending == Handed(closed) && v.hasMore == GoesOn(closed) && v.phase == w.phase
  {
    CloseEvents(s, w, turn, t);
    CloseMessages(s, w, turn, t);
    ClosePolls(w, turn, t);
    PollsAside(config, turn, Closed(turn, t).steering, turn.followUp);
    hide Performed, Close, TurnShape, ToolEvents, BodyEvents, TurnMessages, Live, Handed, GoesOn, OpeningEvents,
         Requested,
         LeftBehind;
  }

  lemma RecoveryLeaves(config: LoopConfig, messages: seq<AgentMessage>, iteration: nat, script: seq<Attempt>,
                       hookCalls: nat)
    ensures var run := Recover(config, messages, iteration, script, hookCalls);
            run.messages == LeftBehind(messages, run.shrunk)
  {
    RecoveryLaws(config, messages, iteration, script, hookCalls);
    hide Recover;
    RecoversToLast(config, messages, iteration, script, hookCalls,
                   Recover(config, messages, iteration, script, hookCalls));
  }

  /** An accepted message came with the allowlist of the turn's last request. */
  lemma AcceptedRequested(config: LoopConfig, messages: seq<AgentMessage>, iteration: nat, script: seq<Attempt>,
                          hookCalls: nat)
    ensures var run := Recover(config, messages, iteration, script, hookCalls);
            && StreamEventsOnly(run.events)
            && RequestsFaithful(config, [messages] + run.shrunk, iteration, run.events)
            && (run.outcome.Accepted? ==>
                  Requested(config, [messages] + run.shrunk, run.events, run.outcome.allow, iteration))
  {
    RecoveryAnswers(config, messages, iteration, script, hookCalls);
    RecoveryEvents(config, messages, iteration, script, hookCalls);
    RecoveryRequests(config, messages, iteration, script, hookCalls);
    hide Recover, StreamEventsOnly, Sent, RequestsFaithful;
  }

  lemma ReactionIs(config: LoopConfig, t: Turn, messages: seq<AgentMessage>, iteration: nat, clock: nat)
    requires ToolCalls(t.assistant) == []
             && t.reaction == ReactToPlainText(config, t.assistant, t.allow, messages, iteration, clock)
    ensures Reacted(config, t)
  {
    hide PlainAssistantText, IsTerminalOnlyAllowlist;
  }

  lemma PlainTurnShape(config: LoopConfig, t: Turn, messages: seq<AgentMessage>, iteration: nat, clock: nat)
    requires StreamEventsOnly(t.streamEvents) && ToolCalls(t.assistant) == [] && t.reports == []
    requires t.reaction == ReactToPlainText(config, t.assistant, t.allow, messages, iteration, clock)
    requires t.terminated == t.reaction.Deliver? && (t.steering.None? <==> t.terminated) && t.followUp.None?
    ensures TurnShape(config, t)
  {
    ReactionIs(config, t, messages, iteration, clock);
    assert ToolEvents(t.sequential, []) == [];
    hide ReactToPlainText, Reacted, ToolEvents, StreamEventsOnly;
  }

  lemma PlainTurnPerformed(config: LoopConfig, history: seq<AgentMessage>, t: Turn, iteration: nat, clock: nat)
    requires Requested(config, [history] + t.shrunk, t.streamEvents, t.allow, iteration) && t.reports == []
    requires var messages := LeftBehind(history, t.shrunk) + [t.assistant];
             t.reaction == ReactToPlainText(config, t.assistant, t.allow, messages, iteration, clock)
    ensures Performed(config, history, t, iteration)
  {
    assert ToolEvents(t.sequential, []) == [];
    hide Requested, LeftBehind, Cleared, PlainAssistantText, IsTerminalOnlyAllowlist, ToolEvents;
  }

  lemma PlainTurnRecords(config: LoopConfig, s: LoopState, run: StreamRun, assistant: AgentMessage,
                         allow: Option<set<string>>, t: TurnScript)
    requires s.phase.Going? && ToolCalls(assistant) == []
    requires run == Recover(config, s.messages + s.pending, |s.turns|, t.attempts, s.hookCalls)
             && run.outcome == Accepted(assistant, allow)
    ensures var v := Act(config, s.pending, run, Streamed(config, s, t), assistant, allow, t);
            exists turn :: Recorded(config, s, v, turn) && v.pending == Handed(turn) && v.hasMore == GoesOn(turn)
              && v.phase.Going?
                        && turn.followUp.None?
  {
    var u := Streamed(config, s, t);
    var v := u.(messages := u.messages + [assistant], produced := u.produced + [assistant]);
    var reaction := ReactToPlainText(config, assistant, allow, v.messages, |u.turns|, t.clock);
    var turn := Turn(s.pending, assistant, allow, run.shrunk, run.events, true, [], reaction, reaction.Deliver?, None,
                     None);
    RecoveryLeaves(config, s.messages + s.pending, |s.turns|, t.attempts, s.hookCalls);
    AcceptedRequested(config, s.messages + s.pending, |s.turns|, t.attempts, s.hookCalls);
    assert Act(config, s.pending, run, u, assistant, allow, t) == Close(v, turn, t);
    PlainTurnPerformed(config, s.messages + s.pending, turn, |s.turns|, t.clock);
    hide Performed, ReactToPlainText, Recover, Requested, RequestsFaithful, LeftBehind, TurnShape, StreamEventsOnly,
         Recorded,
         Handed, GoesOn;
    NothingAdded(s.events + OpeningEvents(|s.turns|) + run.events);
    assert ToolEvents(true, []) == [];
    PlainTurnShape(config, Closed(turn, t), v.messages, |u.turns|, t.clock);
    CloseRecords(config, s, v, turn, t);
  }

  lemma BatchPermitted(b: Batch, schedule: seq<Parallel.Move>)
    ensures StartsPermitted(b.config, b.view, b.allow, RunBatch(b, schedule).events)
  {
    hide RunBatch, Cleared;
    forall call | ToolExecutionStart(call) in RunBatch(b, schedule).events
      ensures Cleared(b.config, b.view, call, b.allow)
    {
      StartedAreCleared(b, schedule, call);
    }
  }

  lemma BatchTurnShape(config: LoopConfig, b: Batch, schedule: seq<Parallel.Move>, t: Turn)
    requires StreamEventsOnly(t.streamEvents) && ToolCalls(t.assistant) != [] && t.followUp.None?
    requires b.config == config && b.calls == ToolCalls(t.assistant) && b.allow == t.allow
    requires RunBatch(b, schedule).verdict == Completed(t.terminated) && t.reports == RunBatch(b, schedule).reports
    requires t.sequential == RunsSequentially(config, Runnable(b).calls) && t.reaction.Nothing?
             && (t.steering.None? <==> t.terminated)
    ensures TurnShape(config, t) && RunBatch(b, schedule).events == ToolEvents(t.sequential, t.reports)
  {
    BatchAnswersAll(b, schedule);
    BatchEvents(b, schedule);
    NonEmptyBatchVote(b, schedule);
    assert Runnable(b).calls == RunCalls(config, t.assistant) && Postponed(b) == DeferredCallsOf(config, t.assistant);
    hide RunBatch, Runnable, Postponed, RunsSequentially, ToolEvents, UnanimousStop, RunCalls, DeferredCallsOf,
         StreamEventsOnly, Beginning;
  }

  lemma BatchTurnPerformed(config: LoopConfig, history: seq<AgentMessage>, b: Batch, schedule: seq<Parallel.Move>,
                           t: Turn,
                           iteration: nat)
    requires Requested(config, [history] + t.shrunk, t.streamEvents, t.allow, iteration) && t.reaction.Nothing?
    requires b.config == config && b.allow == t.allow && b.view == SeenOf(history, t.shrunk, t.assistant)
    requires RunBatch(b, schedule).events == ToolEvents(t.sequential, t.reports)
    ensures Performed(config, history, t, iteration)
  {
    BatchPermitted(b, schedule);
    hide Requested, RunBatch, StartsPermitted, ToolEvents, SeenOf;
  }

  lemma BatchTurnRecords(config: LoopConfig, s: LoopState, run: StreamRun, assistant: AgentMessage,
                         allow: Option<set<string>>, t: TurnScript)
    requires s.phase.Going? && ToolCalls(assistant) != []
    requires run == Recover(config, s.messages + s.pending, |s.turns|, t.attempts, s.hookCalls)
             && run.outcome == Accepted(assistant, allow)
    ensures var v := Act(config, s.pending, run, Streamed(config, s, t), assistant, allow, t);
            v.phase.Going? ==>
              exists turn :: Recorded(config, s, v, turn) && v.pending == Handed(turn) && v.hasMore == GoesOn(turn)
                && turn.followUp.None?
  {
    var u := Streamed(config, s, t);
    var v := u.(messages := u.messages + [assistant], produced := u.produced + [assistant]);
    var b := BatchOf(config, v, assistant, allow, t);
    var batch := RunBatch(b, t.batch.schedule);
    if batch.verdict.Completed? {
      RecoveryLeaves(config, s.messages + s.pending, |s.turns|, t.attempts, s.hookCalls);
      AcceptedRequested(config, s.messages + s.pending, |s.turns|, t.attempts, s.hookCalls);
      var w := v.(events := v.events + batch.events);
      var sequential := RunsSequentially(config, Runnable(b).calls);
      var turn := Turn(s.pending, assistant, allow, run.shrunk, run.events, sequential, batch.reports, Nothing,
                       batch.verdict.terminate, None, None);
      assert Act(config, s.pending, run, u, assistant, allow, t) == Close(w, turn, t);
      assert b.config == config && b.calls == ToolCalls(assistant) && b.allow == allow;
      assert b.view == SeenOf(s.messages + s.pending, run.shrunk, assistant);
      hide Performed, SeenOf, Recover, RunBatch, Runnable, RunsSequentially, ToolEvents, Requested, RequestsFaithful,
           LeftBehind,
           TurnShape,
           StreamEventsOnly, Recorded, Handed, GoesOn;
      BatchTurnShape(config, b, t.batch.schedule, Closed(turn, t));
      BatchTurnPerformed(config, s.messages + s.pending, b, t.batch.schedule, turn, |s.turns|);
      CloseRecords(config, s, w, turn, t);
    }
  }

  // ----- turns that are cut short

  /** How far a turn came that was never recorded: not opened, asked of the provider, or into its batch. */
  datatype Cut =
    | Unopened
    | InStream(shrunk: seq<seq<AgentMessage>>, streamEvents: seq<AgentEvent>)
    | InBatch(assistant: AgentMessage, allow: Option<set<string>>, shrunk: seq<seq<AgentMessage>>,
              streamEvents: seq<AgentEvent>,
              sequential: bool, begun: seq<AgentEvent>)

  function CutEvents(index: nat, cut: Cut): seq<AgentEvent> {
    match cut
    case Unopened => []
    case InStream(_, streamEvents) => OpeningEvents(index) + streamEvents
    case InBatch(_, _, _, streamEvents, _, begun) => OpeningEvents(index) + streamEvents + begun
  }

  function CutMessages(injected: seq<AgentMessage>, cut: Cut): seq<AgentMessage> {
    match cut
    case Unopened => []
    case InStream(_, _) => injected
    case InBatch(assistant, _, _, _, _, _) => injected + [assistant]
  }

  /**
   A turn cut short has asked the provider with its own histories; in its batch it has begun to
   announce its own running calls, within its own allowlist.
   */
  ghost predicate CutShape(config: LoopConfig, cut: Cut, history: seq<AgentMessage>, iteration: nat) {
    match cut
    case Unopened => true
    case InStream(shrunk, streamEvents) =>
      StreamEventsOnly(streamEvents) && RequestsFaithful(config, [history] + shrunk, iteration, streamEvents)
    case InBatch(assistant, allow, shrunk, streamEvents, sequential, begun) =>
      && StreamEventsOnly(streamEvents) && Requested(config, [history] + shrunk, streamEvents, allow, iteration)
      && sequential == RunsSequentially(config, RunCalls(config, assistant))
      && Beginning(RunCalls(config, assistant), sequential, begun)
      && StartsPermitted(config, SeenOf(history, shrunk, assistant), allow, begun)
  }

  /** v is s and what a turn did before it was cut short. */
  ghost predicate CutShort(config: LoopConfig, s: LoopState, v: LoopState) {
    v.turns == s.turns && v.pending == s.pending
    && exists cut ::
      && CutShape(config, cut, s.messages + s.pending, |s.turns|)
      && v.events == s.events + CutEvents(|s.turns|, cut)
      && v.produced == s.produced + CutMessages(s.pending, cut)
  }

  lemma CutBy(config: LoopConfig, s: LoopState, v: LoopState, cut: Cut)
    requires v.turns == s.turns && v.pending == s.pending && CutShape(config, cut, s.messages + s.pending, |s.turns|)
    requires v.events == s.events + CutEvents(|s.turns|, cut) && v.produced == s.produced + CutMessages(s.pending, cut)
    ensures CutShort(config, s, v)
  {
  }

  lemma BatchCutShort(config: LoopConfig, s: LoopState, run: StreamRun, assistant: AgentMessage,
                      allow: Option<set<string>>, t: TurnScript)
    requires s.phase.Going? && ToolCalls(assistant) != []
    requires run == Recover(config, s.messages + s.pending, |s.turns|, t.attempts, s.hookCalls)
             && run.outcome == Accepted(assistant, allow)
    ensures var v := Act(config, s.pending, run, Streamed(config, s, t), assistant, allow, t);
            v.phase.Going? || CutShort(config, s, v)
  {
    var u := Streamed(config, s, t);
    var v := u.(messages := u.messages + [assistant], produced := u.produced + [assistant]);
    var b := BatchOf(config, v, assistant, allow, t);
    var batch := RunBatch(b, t.batch.schedule);
    var w := Act(config, s.pending, run, u, assistant, allow, t);
    if !batch.verdict.Completed? {
      AcceptedRequested(config, s.messages + s.pending, |s.turns|, t.attempts, s.hookCalls);
      RecoveryLeaves(config, s.messages + s.pending, |s.turns|, t.attempts, s.hookCalls);
      BatchEvents(b, t.batch.schedule);
      BatchPermitted(b, t.batch.schedule);
      assert Runnable(b).calls == RunCalls(config, assistant) && b.config == config && b.allow == allow;
      assert b.view == SeenOf(s.messages + s.pending, run.shrunk, assistant);
      var sequential := RunsSequentially(config, Runnable(b).calls);
      assert w.events == s.events + OpeningEvents(|s.turns|) + run.events + batch.events && w.turns == s.turns
        && w.pending == s.pending;
      assert w.produced == s.produced + s.pending + [assistant];
      hide Recover, RunBatch, Runnable, RunsSequentially, Act, Streamed, RunCalls, Beginning, StartsPermitted,
           StreamEventsOnly, Requested,
           RequestsFaithful, OpeningEvents, CutShort;
      Associate(s.produced, s.pending, [assistant]);
      AssociateCut(s.events, OpeningEvents(|s.turns|), run.events, batch.events);
      CutBy(config, s, w, InBatch(assistant, allow, run.shrunk, run.events, sequential, batch.events));
    }
  }

  lemma AssociateCut(a: seq<AgentEvent>, b: seq<AgentEvent>, c: seq<AgentEvent>, d: seq<AgentEvent>)
    ensures a + b + c + d == a + (b + c + d) && a + b + c == a + (b + c)
  {
  }

  /** One pass of the inner loop's body either records one turn or is cut short. */
  lemma TakeTurnLaw(config: LoopConfig, s: LoopState, t: TurnScript)
    requires s.phase.Going?
    ensures var v := TakeTurn(config, s, t);
            if v.phase.Going? then
              exists turn :: Recorded(config, s, v, turn) && v.pending == Handed(turn) && v.hasMore == GoesOn(turn)
                && turn.followUp.None?
            else (v.phase.Halted? || v.phase.Stalled?) && CutShort(config, s, v)
  {
    var v := TakeTurn(config, s, t);
    if t.cancelled {
      NothingAdded(s.events);
      NothingAdded(s.produced);
      hide CutShort;
      CutBy(config, s, v, Unopened);
    } else {
      var run := Recover(config, s.messages + s.pending, |s.turns|, t.attempts, s.hookCalls);
      var u := Streamed(config, s, t);
      if !run.outcome.Accepted? {
        assert v.events == s.events + OpeningEvents(|s.turns|) + run.events && v.turns == s.turns
          && v.pending == s.pending && v.produced == s.produced + s.pending;
        AcceptedRequested(config, s.messages + s.pending, |s.turns|, t.attempts, s.hookCalls);
        hide Recover, StreamEventsOnly, RequestsFaithful, Requested, OpeningEvents, CutShort;
        AssociateCut(s.events, OpeningEvents(|s.turns|), run.events, []);
        CutBy(config, s, v, InStream(run.shrunk, run.events));
      } else {
        var assistant, allow := run.outcome.message, run.outcome.allow;
        assert v == Act(config, s.pending, run, u, assistant, allow, t);
        hide Recover, Streamed, Recorded, GoesOn, Handed, CutShort;
        if ToolCalls(assistant) == [] {
          PlainTurnRecords(config, s, run, assistant, allow, t);
        } else {
          ActNeverEnds(config, s.pending, run, u, assistant, allow, t);
          BatchTurnRecords(config, s, run, assistant, allow, t);
          BatchCutShort(config, s, run, assistant, allow, t);
        }
      }
    }
  }

  lemma ActNeverEnds(config: LoopConfig, injected: seq<AgentMessage>, run: StreamRun, u: LoopState,
                     assistant: AgentMessage, allow: Option<set<string>>, t: TurnScript)
    requires u.phase.Going?
    ensures !Act(config, injected, run, u, assistant, allow, t).phase.Ended?
  {
    hide RunBatch, ReactToPlainText, RunsSequentially;
  }

  /** A turn after which the loop carries on. */
  predicate Continues(t: Turn) {
    !t.terminated && (GoesOn(t) || Handed(t) != [])
  }

  /** A turn after which the run is over: it terminated, or it was quiet and no follow-up came. */
  predicate Final(t: Turn) {
    t.terminated || (Quiet(t) && t.followUp == Some([]))
  }

  /** The follow-up sources are asked exactly after quiet turns. */
  predicate FollowUpAsked(t: Turn) {
    t.followUp.Some? <==> Quiet(t)
  }

  lemma LastReplaced<T>(front: seq<T>, x: T, y: T)
    ensures (front + [x])[..|front + [x]| - 1] + [y] == front + [y] && (front + [x])[|front + [x]| - 1] == x
  {
  }

  lemma RegroupPoll(a: seq<AgentEvent>, b: seq<AgentEvent>, c: seq<AgentEvent>, d: seq<AgentEvent>, e: seq<AgentEvent>)
    ensures a + (b + (c + [])) + d == a + (b + (c + d))
  {
  }

  lemma FollowUpRecorded(config: LoopConfig, s: LoopState, v: LoopState, turn: Turn, followUp: seq<AgentMessage>)
    requires Recorded(config, s, v, turn) && turn.followUp.None? && Quiet(turn)
    ensures var asked := turn.(followUp := Some(followUp));
            Recorded(config, s, v.(turns := s.turns + [asked], events := v.events + [FollowUpPolled(followUp)]), asked)
  {
    var asked := turn.(followUp := Some(followUp));
    PollsAside(config, turn, turn.steering, Some(followUp));
    var before := turn.streamEvents + ToolEvents(turn.sequential, turn.reports)
      + [TurnEnd(turn.assistant, Results(turn))];
    assert PollEvents(turn) == [SteeringPolled([])] + []
      && PollEvents(asked) == [SteeringPolled([])] + [FollowUpPolled(followUp)];
    RegroupPoll(s.events + OpeningEvents(|s.turns|), before, [SteeringPolled([])], [FollowUpPolled(followUp)], []);
    hide ToolEvents, Results, PollEvents, OpeningEvents, TurnMessages, AnswersEach, Reacted, StopsRun, Requested,
         StartsPermitted, StreamEventsOnly, Live;
  }

  /** The turn just recorded, polls and all, and what it means for the loop. */
  ghost predicate Settled(config: LoopConfig, s: LoopState, w: LoopState, done: Turn) {
    && FollowUpAsked(done)
    && Recorded(config, s, w, done)
    && w.pending == Handed(done)
    && (w.phase.Going? || w.phase.Ended?)
    && (if w.phase.Going? then Continues(done) else Final(done))
  }

  /**
   Settling keeps the record; it leaves the loop carrying on after a turn that continues and ended
   after a final one.
   */
  lemma SettleLaw(config: LoopConfig, s: LoopState, v: LoopState, turn: Turn, t: TurnScript)
    requires v.phase.Going? && Recorded(config, s, v, turn) && turn.followUp.None?
    requires v.pending == Handed(turn) && v.hasMore == GoesOn(turn)
    ensures exists done: Turn :: Settled(config, s, Settle(v, t), done)
  {
    var w := Settle(v, t);
    var last := v.turns[|v.turns| - 1];
    assert last == turn;
    if v.hasMore || v.pending != [] {
      assert Settled(config, s, w, turn);
    } else if turn.terminated {
      assert Settled(config, s, w, turn);
    } else {
      LastReplaced(s.turns, turn, turn.(followUp := Some(t.followUp)));
      FollowUpRecorded(config, s, v, turn, t.followUp);
      var asked := turn.(followUp := Some(t.followUp));
      assert Quiet(asked) && FollowUpAsked(asked) && Handed(asked) == t.followUp;
      hide Handed, Quiet, TurnShape, TurnMessages, BodyEvents, OpeningEvents;
      assert Settled(config, s, w, asked);
    }
  }

  // ----- laws of whole runs

  function LastTurn(s: LoopState): Turn
    requires s.turns != []
  {
    s.turns[|s.turns| - 1]
  }

  /** What turn k was given to inject: the polls before the first turn, then each turn's own polls. */
  function Injection(start: LoopState, turns: seq<Turn>, k: nat): seq<AgentMessage>
    requires k <= |turns|
  {
    if k == 0 then start.pending else Handed(turns[k - 1])
  }

  /**
   The histories turn k made its requests for: the live one with what it injected, and those the
   recovery hook shrank it to.
   */
  function Histories(start: LoopState, turns: seq<Turn>, k: nat): seq<seq<AgentMessage>>
    requires k < |turns|
  {
    [HistoryOf(start, turns, k)] + turns[k].shrunk
  }

  /** The live history turn k began with. */
  function HistoryOf(start: LoopState, turns: seq<Turn>, k: nat): seq<AgentMessage>
    requires k < |turns|
  {
    LiveAfter(start.messages, turns[..k]) + turns[k].injected
  }

  predicate Unshrunk(turns: seq<Turn>) {
    forall k :: 0 <= k < |turns| ==> turns[k].shrunk == []
  }

  /**
   Turn k is well shaped, made its request as iteration k, asked for follow-ups iff it was quiet, and
   injected what had been handed to it.
   */
  ghost predicate Proper(config: LoopConfig, start: LoopState, turns: seq<Turn>, k: nat)
    requires k < |turns|
  {
    && TurnShape(config, turns[k]) && FollowUpAsked(turns[k])
    && Performed(config, HistoryOf(start, turns, k), turns[k], k)
    && turns[k].injected == Injection(start, turns, k)
  }

  /** The record of accepted turns: each proper, and all but the last carrying on. */
  ghost predicate Chronicle(config: LoopConfig, start: LoopState, turns: seq<Turn>) {
    && (forall k: nat :: k < |turns| ==> Proper(config, start, turns, k))
    && (forall k :: 0 <= k < |turns| - 1 ==> Continues(turns[k]))
  }

  /** The transcript and the events are exactly those of the recorded turns. */
  ghost predicate Books(start: LoopState, s: LoopState) {
    && s.produced == start.produced + AllMessages(s.turns)
    && s.messages == LiveAfter(start.messages, s.turns)
    && s.events == start.events + AllEvents(s.turns)
    && s.pending == Injection(start, s.turns, |s.turns|)
  }

  /** The history the turn after the recorded ones would begin with. */
  function NextHistory(start: LoopState, turns: seq<Turn>): seq<AgentMessage> {
    LiveAfter(start.messages, turns) + Injection(start, turns, |turns|)
  }

  /** The transcript and the events are those of the recorded turns and of this one, which was cut short. */
  ghost predicate CutAt(config: LoopConfig, start: LoopState, s: LoopState, cut: Cut) {
    && s.pending == Injection(start, s.turns, |s.turns|)
    && CutShape(config, cut, NextHistory(start, s.turns), |s.turns|)
    && s.events == start.events + AllEvents(s.turns) + CutEvents(|s.turns|, cut)
    && s.produced == start.produced + AllMessages(s.turns) + CutMessages(Injection(start, s.turns, |s.turns|), cut)
  }

  ghost predicate Interrupted(config: LoopConfig, start: LoopState, s: LoopState) {
    exists cut :: CutAt(config, start, s, cut)
  }

  ghost predicate LoopInv(config: LoopConfig, start: LoopState, s: LoopState) {
    && Chronicle(config, start, s.turns)
    && (if s.phase.Ended? then Books(start, s) && s.turns != [] && Final(LastTurn(s))
        else
          && (s.turns != [] ==> Continues(LastTurn(s)))
          && (if s.phase.Going? then Books(start, s) else Interrupted(config, start, s)))
  }

  /** A first state: nothing has happened but the first poll. */
  predicate Fresh(start: LoopState) {
    start.turns == [] && start.phase.Going? && start.hasMore
  }

  lemma AllSnoc(turns: seq<Turn>, t: Turn)
    ensures AllMessages(turns + [t]) == AllMessages(turns) + TurnMessages(t)
    ensures AllEvents(turns + [t]) == AllEvents(turns) + OpeningEvents(|turns|) + BodyEvents(t)
    ensures forall messages :: LiveAfter(messages, turns + [t]) == Live(LiveAfter(messages, turns), t)
  {
    assert (turns + [t])[..|turns|] == turns;
  }

  lemma ChronicleSnoc(config: LoopConfig, start: LoopState, turns: seq<Turn>, t: Turn)
    requires Chronicle(config, start, turns)
    requires TurnShape(config, t) && FollowUpAsked(t) && t.injected == Injection(start, turns, |turns|)
    requires Performed(config, LiveAfter(start.messages, turns) + t.injected, t, |turns|)
    requires turns != [] ==> Continues(turns[|turns| - 1])
    ensures Chronicle(config, start, turns + [t])
  {
    var more := turns + [t];
    hide TurnShape, FollowUpAsked, Continues, Handed, Performed, LiveAfter, Proper;
    forall k: nat | k < |more| ensures Proper(config, start, more, k) {
      if k < |turns| {
        assert Proper(config, start, turns, k);
        ProperLonger(config, start, turns, t, k);
      } else {
        ProperLast(config, start, turns, t);
      }
    }
  }

  lemma ProperLonger(config: LoopConfig, start: LoopState, turns: seq<Turn>, t: Turn, k: nat)
    requires k < |turns| && Proper(config, start, turns, k)
    ensures Proper(config, start, turns + [t], k)
  {
    hide TurnShape, FollowUpAsked, Handed, Performed, LiveAfter;
    assert (turns + [t])[..k] == turns[..k];
  }

  lemma ProperLast(config: LoopConfig, start: LoopState, turns: seq<Turn>, t: Turn)
    requires TurnShape(config, t) && FollowUpAsked(t) && t.injected == Injection(start, turns, |turns|)
    requires Performed(config, LiveAfter(start.messages, turns) + t.injected, t, |turns|)
    ensures Proper(config, start, turns + [t], |turns|)
  {
    hide TurnShape, FollowUpAsked, Handed, Performed, LiveAfter;
    assert (turns + [t])[..|turns|] == turns;
  }

  /** Without recovery the live history is the initial one and all the turns' messages. */
  lemma {:induction false} LiveUnshrunk(messages: seq<AgentMessage>, turns: seq<Turn>)
    requires Unshrunk(turns)
    ensures LiveAfter(messages, turns) == messages + AllMessages(turns)
    decreases |turns|
  {
    if turns == [] {
      NothingAdded(messages);
    } else {
      var front, t := turns[..|turns| - 1], turns[|turns| - 1];
      LiveUnshrunk(messages, front);
      RegroupMessages(messages + AllMessages(front), t.injected, t.assistant, Results(t),
                      if t.reaction.Nudge? then [t.reaction.message] else []);
      hide Results;
      Associate(messages, AllMessages(front), TurnMessages(t));
    }
  }

  /** Adding a recorded turn to a going loop keeps the books. */
  lemma RecordKeeps(config: LoopConfig, start: LoopState, s: LoopState, w: LoopState, turn: Turn)
    requires LoopInv(config, start, s) && s.phase.Going?
    requires Settled(config, s, w, turn)
    ensures LoopInv(config, start, w)
  {
    ChronicleSnoc(config, start, s.turns, turn);
    AllSnoc(s.turns, turn);
    Associate(start.produced, AllMessages(s.turns), TurnMessages(turn));
    Associate(start.events, AllEvents(s.turns), OpeningEvents(|s.turns|));
    Associate(start.events, AllEvents(s.turns) + OpeningEvents(|s.turns|), BodyEvents(turn));
    assert LastTurn(w) == turn && Injection(start, w.turns, |w.turns|) == Handed(turn);
    hide Chronicle, AllMessages, AllEvents, LiveAfter, Live, TurnMessages, BodyEvents, OpeningEvents, TurnShape,
         FollowUpAsked,
         Requested, Injection, Handed, Continues, Final, LastTurn;
    assert Books(start, w);
  }

  lemma CutShortKeeps(config: LoopConfig, start: LoopState, s: LoopState, v: LoopState)
    requires LoopInv(config, start, s) && s.phase.Going?
    requires CutShort(config, s, v) && (v.phase.Halted? || v.phase.Stalled?)
    ensures LoopInv(config, start, v)
  {
    hide Chronicle, Books, Continues, Interrupted, CutShape, CutEvents, CutMessages, Final;
    CutShortInterrupts(config, start, s, v);
  }

  lemma CutShortInterrupts(config: LoopConfig, start: LoopState, s: LoopState, v: LoopState)
    requires Books(start, s) && CutShort(config, s, v)
    ensures Interrupted(config, start, v)
  {
    hide CutShape, CutEvents, CutMessages, AllEvents, AllMessages, Injection, LiveAfter;
    var cut :|
      && CutShape(config, cut, s.messages + s.pending, |s.turns|)
      && v.events == s.events + CutEvents(|s.turns|, cut)
      && v.produced == s.produced + CutMessages(s.pending, cut);
    assert CutAt(config, start, v, cut);
  }

  lemma PassKeeps(config: LoopConfig, start: LoopState, s: LoopState, t: TurnScript)
    requires LoopInv(config, start, s) && s.phase.Going?
    ensures LoopInv(config, start, Settle(TakeTurn(config, s, t), t))
  {
    var v := TakeTurn(config, s, t);
    hide *;
    TakeTurnLaw(config, s, t);
    if v.phase.Going? {
      var turn :| Recorded(config, s, v, turn) && v.pending == Handed(turn) && v.hasMore == GoesOn(turn)
        && turn.followUp.None?;
      SettleLaw(config, s, v, turn, t);
      var done :| Settled(config, s, Settle(v, t), done);
      RecordKeeps(config, start, s, Settle(v, t), done);
    } else {
      NothingToSettle(v, t);
      CutShortKeeps(config, start, s, v);
    }
  }

  lemma NothingToSettle(v: LoopState, t: TurnScript)
    requires !v.phase.Going?
    ensures Settle(v, t) == v
  {
  }

  lemma FreshHolds(config: LoopConfig, start: LoopState)
    requires Fresh(start)
    ensures LoopInv(config, start, start)
  {
    assert AllMessages([]) == [] && AllEvents([]) == [];
  }

  /** Every state of every run satisfies the loop's invariant. */
  lemma {:induction false} RunLaws(config: LoopConfig, start: LoopState, script: seq<TurnScript>, n: nat)
    requires Fresh(start) && n <= |script|
    ensures LoopInv(config, start, RunTo(config, start, script, n))
    decreases n
  {
    hide LoopInv, TakeTurn, Settle, Fresh;
    if n == 0 {
      FreshHolds(config, start);
    } else {
      RunLaws(config, start, script, n - 1);
      var s := RunTo(config, start, script, n - 1);
      if s.phase.Going? {
        PassKeeps(config, start, s, script[n - 1]);
      }
    }
  }
}

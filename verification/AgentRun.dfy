/**
 The agent loop as it runs (src/run.rs): `run`, `run_continue` and the nested loops of `inner_run`.

 The transcript is an object the loop pushes to, the events go to a sink, and the loop's local
 variables travel in a record from one method to the next; ghost parameters carry the abstract
 state that the postconditions compare with. The environment is a script of turns: when it is
 used up the run is still waiting, which is a result of its own.
 */
module AgentRun {
  import opened Wrappers
  import opened Transcript
  import opened Config
  import opened Dispatch
  import opened BatchExecution
  import opened Streaming
  import opened AgentLoop
  import opened RunTheorems
  import Sequential

  /** The local variables of the loop. */
  datatype Locals = Locals(
    produced: seq<AgentMessage>,
    pending: seq<AgentMessage>,
    hasMore: bool,
    hookCalls: nat,
    iterations: nat,
    firstTurn: bool,
    lastBatchTerminated: bool)

  ghost predicate Tracks(v: Locals, s: LoopState) {
    && v.produced == s.produced && v.pending == s.pending && v.hasMore == s.hasMore && v.hookCalls == s.hookCalls
    && v.iterations == |s.turns|
    && v.firstTurn == (s.turns == [])
    && v.lastBatchTerminated == (s.turns != [] && LastTurn(s).terminated)
  }

  method PushAll(current: AgentContext, produced: seq<AgentMessage>, messages: seq<AgentMessage>)
    returns (all: seq<AgentMessage>)
    modifies current
    ensures current.messages == old(current.messages) + messages
    ensures all == produced + messages
  {
    all := produced;
    for i := 0 to |messages|
      invariant current.messages == old(current.messages) + messages[..i]
      invariant all == produced + messages[..i]
    {
      current.Push(messages[i]);
      all := all + [messages[i]];
      assert messages[..i + 1] == messages[..i] + [messages[i]];
    }
    assert messages[..|messages|] == messages;
  }

  /** The loop's answer to a turn without tool calls. */
  method AnswerPlainText(config: LoopConfig, current: AgentContext, v: Locals, assistant: AgentMessage,
                         allow: Option<set<string>>, clock: nat)
    returns (w: Locals, results: seq<AgentMessage>)
    requires !v.hasMore && !v.lastBatchTerminated && v.iterations > 0
    modifies current
    ensures var reaction := ReactToPlainText(config, assistant, allow, old(current.messages), v.iterations - 1, clock);
            var nudge := if reaction.Nudge? then [reaction.message] else [];
            && results == (if reaction.Deliver? then [reaction.result] else [])
            && w == v.(produced := v.produced + (results + nudge), hasMore := reaction.Nudge?,
                       lastBatchTerminated := reaction.Deliver?)
            && current.messages == old(current.messages) + (results + nudge)
  {
    w, results := v, [];
    if config.fallback.Some? {
      var fallback := config.fallback.value;
      var narrowed := IsTerminalOnlyAllowlist(allow, fallback.tool, config.terminalToolNames);
      if fallback.nudge && fallback.eager && !narrowed {
        var nudge := System(config.recoveryPrompt(current.messages, v.iterations - 1));
        current.Push(nudge);
        w := w.(produced := w.produced + [nudge], hasMore := true);
        NothingAdded([nudge]);
      } else {
        var synthesized := SynthesizePlainTextTerminalResult(config, fallback, assistant, allow, clock);
        if synthesized.Some? {
          w := w.(lastBatchTerminated := true, produced := w.produced + [synthesized.value]);
          current.Push(synthesized.value);
          results := [synthesized.value];
          NothingAdded([synthesized.value]);
        }
      }
    }
  }

  /** The loop's answer to a turn with tool calls. */
  method AnswerCalls(config: LoopConfig, current: AgentContext, v: Locals, assistant: AgentMessage,
                     allow: Option<set<string>>, t: TurnScript, ghost batch: BatchRun, sink: EventSink)
    returns (w: Locals, results: seq<AgentMessage>, phase: Phase)
    requires !v.hasMore && !v.lastBatchTerminated
    requires batch == RunBatch(Batch(config, TurnView(assistant, current.messages), allow, ToolCalls(assistant),
                                     t.batch.bodies), t.batch.schedule)
    modifies current, sink
    ensures && sink.log == old(sink.log) + batch.events
            && (batch.verdict.Broke? ==>
                  phase == Halted(batch.verdict.error) && w == v && current.messages == old(current.messages))
            && (batch.verdict.Waiting? ==> phase == Stalled && w == v && current.messages == old(current.messages))
            && (batch.verdict.Completed? ==>
                  && phase == Going && results == Messages(batch.reports)
                  && w == v.(produced := v.produced + results, hasMore := !batch.verdict.terminate,
                             lastBatchTerminated := batch.verdict.terminate)
                  && current.messages == old(current.messages) + results)
  {
    w, results := v, [];
    var b := Batch(config, TurnView(assistant, current.messages), allow, ToolCalls(assistant), t.batch.bodies);
    var executed := ExecuteToolBatch(b, t.batch.schedule, sink);
    hide RunBatch, Messages, ToolCalls;
    match executed {
      case Failed(error) => phase := Halted(error);
      case Pending => phase := Stalled;
      case Executed(messages, terminate) =>
        phase := Going;
        results := messages;
        w := w.(hasMore := !terminate, lastBatchTerminated := terminate);
        var produced := PushAll(current, w.produced, results);
        w := w.(produced := produced);
    }
  }

  /** The state a completed turn leads to, part by part. */
  ghost predicate Completes(u: LoopState, x: LoopState, assistant: AgentMessage, results: seq<AgentMessage>,
                            nudge: seq<AgentMessage>,
                            toolEvents: seq<AgentEvent>, hasMore: bool, terminated: bool, t: TurnScript) {
    && x.phase.Going? && x.hookCalls == u.hookCalls
    && x.messages == u.messages + [assistant] + (results + nudge)
    && x.produced == u.produced + [assistant] + (results + nudge)
    && x.pending == (if terminated then [] else t.steering)
    && x.hasMore == hasMore && (terminated ==> !hasMore)
    && |x.turns| == |u.turns| + 1 && LastTurn(x).terminated == terminated
    && x.events == u.events + toolEvents + [TurnEnd(assistant, results)]
      + (if terminated then [] else [SteeringPolled(t.steering)])
  }

  lemma PlainActIs(config: LoopConfig, injected: seq<AgentMessage>, run: StreamRun, u: LoopState,
                   assistant: AgentMessage, allow: Option<set<string>>, t: TurnScript)
    requires u.phase.Going? && ToolCalls(assistant) == []
    ensures var reaction := ReactToPlainText(config, assistant, allow, u.messages + [assistant], |u.turns|, t.clock);
            Completes(u, Act(config, injected, run, u, assistant, allow, t), assistant,
                      if reaction.Deliver? then [reaction.result] else [], if reaction.Nudge? then [reaction.message]
                        else [],
                      [], reaction.Nudge?, reaction.Deliver?, t)
  {
    var reaction := ReactToPlainText(config, assistant, allow, u.messages + [assistant], |u.turns|, t.clock);
    assert Messages([]) == [];
    NothingAdded(u.events);
    hide ReactToPlainText;
  }

  lemma BatchActIs(config: LoopConfig, injected: seq<AgentMessage>, run: StreamRun, u: LoopState,
                   assistant: AgentMessage, allow: Option<set<string>>, t: TurnScript)
    requires u.phase.Going? && ToolCalls(assistant) != []
    ensures var batch := RunBatch(Batch(config, TurnView(assistant, u.messages + [assistant]), allow,
                                        ToolCalls(assistant), t.batch.bodies), t.batch.schedule);
            var x := Act(config, injected, run, u, assistant, allow, t);
            && (batch.verdict.Completed? ==>
                  Completes(u, x, assistant, Messages(batch.reports), [], batch.events, !batch.verdict.terminate,
                            batch.verdict.terminate, t))
            && (!batch.verdict.Completed? ==>
                  && x.phase == (if batch.verdict.Broke? then Halted(batch.verdict.error) else Stalled)
                  && x.messages == u.messages + [assistant] && x.produced == u.produced + [assistant]
                  && x.events == u.events + batch.events)
  {
    hide RunBatch, RunsSequentially, Runnable, Messages;
  }

  /** The end of a turn: its TurnEnd, and the steering poll unless it terminated. */
  method FinishTurn(v: Locals, assistant: AgentMessage, results: seq<AgentMessage>, t: TurnScript, sink: EventSink)
    returns (w: Locals)
    modifies sink
    ensures w == v.(pending := if v.lastBatchTerminated then [] else t.steering)
    ensures sink.log == old(sink.log) + [TurnEnd(assistant, results)]
            + (if v.lastBatchTerminated then [] else [SteeringPolled(t.steering)])
  {
    sink.Emit(TurnEnd(assistant, results));
    if v.lastBatchTerminated {
      w := v.(pending := []);
    } else {
      sink.Emit(SteeringPolled(t.steering));
      w := v.(pending := t.steering);
    }
  }

  lemma CompletedTracks(u: LoopState, x: LoopState, w: Locals, assistant: AgentMessage, results: seq<AgentMessage>,
                        nudge: seq<AgentMessage>,
                        toolEvents: seq<AgentEvent>, t: TurnScript)
    requires Completes(u, x, assistant, results, nudge, toolEvents, w.hasMore, w.lastBatchTerminated, t)
    requires w.produced == u.produced + [assistant] + (results + nudge) && w.hookCalls == u.hookCalls
    requires w.iterations == |u.turns| + 1 && !w.firstTurn
    requires w.pending == if w.lastBatchTerminated then [] else t.steering
    ensures Tracks(w, x) && x.phase.Going? && (w.lastBatchTerminated ==> !w.hasMore && w.pending == [])
    ensures x.messages == u.messages + [assistant] + (results + nudge) && x.produced == w.produced
    ensures x.events == u.events + toolEvents + [TurnEnd(assistant, results)]
            + (if w.lastBatchTerminated then [] else [SteeringPolled(t.steering)])
  {
  }

  lemma RegroupTurnEvents(a: seq<AgentEvent>, b: seq<AgentEvent>, c: seq<AgentEvent>, d: seq<AgentEvent>,
                          e: seq<AgentEvent>)
    ensures a + b + c + d + e == a + (b + c + d + e)
    ensures a + b + d + e == a + (b + [] + d + e)
  {
  }

  method RespondPlain(config: LoopConfig, current: AgentContext, v: Locals, assistant: AgentMessage,
                      allow: Option<set<string>>, t: TurnScript,
                      ghost injected: seq<AgentMessage>, ghost run: StreamRun, ghost u: LoopState,
                      ghost start: seq<AgentEvent>, sink: EventSink)
    returns (w: Locals)
    requires Ready(u, v, assistant) && current.messages == u.messages + [assistant] && sink.log == start + u.events
    requires ToolCalls(assistant) == []
    modifies current, sink
    ensures var x := Act(config, injected, run, u, assistant, allow, t);
            && current.messages == x.messages && w.produced == x.produced && sink.log == start + x.events
            && x.phase.Going?
            && Tracks(w, x) && w.iterations == v.iterations && (w.lastBatchTerminated ==> !w.hasMore && w.pending == [])
  {
    ghost var x := Act(config, injected, run, u, assistant, allow, t);
    ghost var reaction := ReactToPlainText(config, assistant, allow, u.messages + [assistant], |u.turns|, t.clock);
    ghost var nudge := if reaction.Nudge? then [reaction.message] else [];
    PlainActIs(config, injected, run, u, assistant, allow, t);
    hide Act, ReactToPlainText, Completes, Tracks, ToolCalls;
    var results;
    w, results := AnswerPlainText(config, current, v, assistant, allow, t.clock);
    w := FinishTurn(w, assistant, results, t, sink);
    CompletedTracks(u, x, w, assistant, results, nudge, [], t);
    RegroupTurnEvents(start, u.events, [], [TurnEnd(assistant, results)],
                      if w.lastBatchTerminated then [] else [SteeringPolled(t.steering)]);
  }

  /** The turn's assistant message is in, its tool calls are not answered yet. */
  ghost predicate Ready(u: LoopState, v: Locals, assistant: AgentMessage) {
    && u.phase.Going? && v.produced == u.produced + [assistant]
    && v.hookCalls == u.hookCalls && v.iterations == |u.turns| + 1
    && !v.lastBatchTerminated && !v.firstTurn && !v.hasMore
  }

  method RespondCalls(config: LoopConfig, current: AgentContext, v: Locals, assistant: AgentMessage,
                      allow: Option<set<string>>, t: TurnScript,
                      ghost injected: seq<AgentMessage>, ghost run: StreamRun, ghost u: LoopState,
                      ghost start: seq<AgentEvent>, sink: EventSink)
    returns (w: Locals, phase: Phase)
    requires Ready(u, v, assistant) && current.messages == u.messages + [assistant] && sink.log == start + u.events
    requires ToolCalls(assistant) != []
    modifies current, sink
    ensures var x := Act(config, injected, run, u, assistant, allow, t);
            && phase == x.phase && current.messages == x.messages && w.produced == x.produced
            && sink.log == start + x.events
            && (phase.Going? ==>
                  Tracks(w, x) && w.iterations == v.iterations
                    && (w.lastBatchTerminated ==> !w.hasMore && w.pending == []))
  {
    ghost var x := Act(config, injected, run, u, assistant, allow, t);
    ghost var b := Batch(config, TurnView(assistant, u.messages + [assistant]), allow, ToolCalls(assistant),
                         t.batch.bodies);
    ghost var batch := RunBatch(b, t.batch.schedule);
    BatchActIs(config, injected, run, u, assistant, allow, t);
    hide Act, RunBatch, Completes, Tracks, Messages, ToolCalls;
    var results;
    w, results, phase := AnswerCalls(config, current, v, assistant, allow, t, batch, sink);
    if !phase.Going? {
      RegroupTurnEvents(start, u.events, [], batch.events, []);
      return;
    }
    w := FinishTurn(w, assistant, results, t, sink);
    NothingAdded(results);
    CompletedTracks(u, x, w, assistant, results, [], batch.events, t);
    RegroupTurnEvents(start, u.events, batch.events, [TurnEnd(assistant, results)],
                      if w.lastBatchTerminated then [] else [SteeringPolled(t.steering)]);
  }

  /** The opening of a turn: TurnStart, the pending messages, and the provider's answer. */
  method OpenTurn(config: LoopConfig, current: AgentContext, v: Locals, t: TurnScript, ghost s: LoopState,
                  ghost start: seq<AgentEvent>, sink: EventSink)
    returns (w: Locals, outcome: StreamOutcome)
    requires Tracks(v, s) && current.messages == s.messages && sink.log == start + s.events
    modifies current, sink
    ensures var u := Streamed(config, s, t);
            && outcome == Recover(config, s.messages + s.pending, |s.turns|, t.attempts, s.hookCalls).outcome
            && current.messages == u.messages && sink.log == start + u.events
            && w == Locals(u.produced, [], v.hasMore, u.hookCalls, |s.turns| + 1, false, v.lastBatchTerminated)
  {
    w := v.(iterations := v.iterations + 1);
    if w.firstTurn {
      w := w.(firstTurn := false);
      NothingAdded(sink.log);
    } else {
      sink.Emit(TurnStart);
    }
    assert sink.log == start + s.events + OpeningEvents(|s.turns|);
    var produced := PushAll(current, w.produced, w.pending);
    w := w.(produced := produced, pending := []);
    ghost var run := Recover(config, s.messages + s.pending, |s.turns|, t.attempts, s.hookCalls);
    hide Recover, Tracks, OpeningEvents;
    var hookCalls;
    outcome, hookCalls := StreamWithOverflowRecovery(config, current, w.iterations - 1, t.attempts, w.hookCalls, sink);
    w := w.(hookCalls := hookCalls);
    RegroupOpening(start, s.events, OpeningEvents(|s.turns|), run.events);
  }

  lemma RegroupOpening(a: seq<AgentEvent>, b: seq<AgentEvent>, c: seq<AgentEvent>, d: seq<AgentEvent>)
    ensures a + b + c + d == a + (b + c + d)
  {
  }

  /** One pass through the inner loop's body. */
  method RunTurn(config: LoopConfig, current: AgentContext, v: Locals, t: TurnScript, ghost s: LoopState,
                 ghost start: seq<AgentEvent>, sink: EventSink)
    returns (w: Locals, phase: Phase)
    requires s.phase.Going? && Tracks(v, s) && !v.lastBatchTerminated
    requires current.messages == s.messages && sink.log == start + s.events
    modifies current, sink
    ensures var x := TakeTurn(config, s, t);
            && phase == x.phase && current.messages == x.messages && w.produced == x.produced
            && sink.log == start + x.events
            && (phase.Going? ==>
                  Tracks(w, x) && w.iterations == v.iterations + 1 && x.turns != []
                    && (w.lastBatchTerminated ==> !w.hasMore && w.pending == []))
  {
    w := v;
    if t.cancelled {
      return w, Halted(AbortedRun);
    }
    ghost var run := Recover(config, s.messages + s.pending, |s.turns|, t.attempts, s.hookCalls);
    ghost var u := Streamed(config, s, t);
    TakeTurnIs(config, s, t);
    assert u.phase.Going? && u.turns == s.turns;
    hide TakeTurn, Recover, Act, Streamed, Tracks;
    var outcome;
    w, outcome := OpenTurn(config, current, v, t, s, start, sink);
    match outcome {
      case Awaiting => phase := Stalled;
      case Rejected(error, _) => phase := Halted(error);
      case Accepted(assistant, allow) =>
        current.Push(assistant);
        w := w.(produced := w.produced + [assistant], hasMore := false);
        w, phase := Respond(config, current, w, assistant, allow, t, s.pending, run, u, start, sink);
    }
  }

  method Respond(config: LoopConfig, current: AgentContext, v: Locals, assistant: AgentMessage,
                 allow: Option<set<string>>, t: TurnScript,
                 ghost injected: seq<AgentMessage>, ghost run: StreamRun, ghost u: LoopState,
                 ghost start: seq<AgentEvent>, sink: EventSink)
    returns (w: Locals, phase: Phase)
    requires Ready(u, v, assistant) && current.messages == u.messages + [assistant] && sink.log == start + u.events
    modifies current, sink
    ensures var x := Act(config, injected, run, u, assistant, allow, t);
            && phase == x.phase && current.messages == x.messages && w.produced == x.produced
            && sink.log == start + x.events
            && (phase.Going? ==>
                  Tracks(w, x) && w.iterations == v.iterations
                    && (w.lastBatchTerminated ==> !w.hasMore && w.pending == []))
  {
    if ToolCalls(assistant) == [] {
      w := RespondPlain(config, current, v, assistant, allow, t, injected, run, u, start, sink);
      phase := Going;
      hide Act, Ready;
    } else {
      w, phase := RespondCalls(config, current, v, assistant, allow, t, injected, run, u, start, sink);
      hide Act, Ready;
    }
  }

  lemma TakeTurnIs(config: LoopConfig, s: LoopState, t: TurnScript)
    requires !t.cancelled
    ensures var run, u := Recover(config, s.messages + s.pending, |s.turns|, t.attempts, s.hookCalls),
            Streamed(config, s, t);
            TakeTurn(config, s, t) ==
              match run.outcome
              case Awaiting => u.(phase := Stalled)
              case Rejected(error, _) => u.(phase := Halted(error))
              case Accepted(assistant, allow) => Act(config, s.pending, run, u, assistant, allow, t)
  {
    hide Act, Recover;
  }

  // ----- the nested loops

  lemma SettleIdle(s: LoopState, t: TurnScript)
    requires s.hasMore || s.pending != [] || !s.phase.Going?
    ensures Settle(s, t) == s
  {
  }

  /** Where the loop stands after n scripts, before the stop condition has been looked at. */
  ghost predicate Stands(config: LoopConfig, begin: LoopState, script: seq<TurnScript>, n: nat, s: LoopState)
    requires n <= |script|
  {
    && s.phase.Going?
    && (s.turns == [] ==> s.hasMore)
    && RunTo(config, begin, script, n) == if n == 0 then s else Settle(s, script[n - 1])
  }

  lemma StandsStill(config: LoopConfig, begin: LoopState, script: seq<TurnScript>, n: nat, s: LoopState)
    requires n <= |script| && Stands(config, begin, script, n, s) && (s.hasMore || s.pending != [])
    ensures RunTo(config, begin, script, n) == s && s.phase.Going?
  {
    if n > 0 {
      SettleIdle(s, script[n - 1]);
    }
  }

  lemma StandsNext(config: LoopConfig, begin: LoopState, script: seq<TurnScript>, n: nat, s: LoopState)
    requires n < |script| && RunTo(config, begin, script, n) == s && s.phase.Going?
    ensures var x := TakeTurn(config, s, script[n]);
            && RunTo(config, begin, script, n + 1) == Settle(x, script[n])
            && (x.phase.Going? && x.turns != [] ==> Stands(config, begin, script, n + 1, x))
            && (!x.phase.Going? ==> RunTo(config, begin, script, |script|) == x)
  {
    var x := TakeTurn(config, s, script[n]);
    hide TakeTurn;
    if !x.phase.Going? {
      SettleIdle(x, script[n]);
      assert RunTo(config, begin, script, n + 1) == x;
      hide RunTo, Settle;
      RunRests(config, begin, script, n + 1, |script|);
    }
  }

  lemma TracksGuard(v: Locals, s: LoopState)
    requires Tracks(v, s)
    ensures v.hasMore == s.hasMore && v.pending == s.pending && v.produced == s.produced
  {
  }

  datatype RunOutcome = Complete | FailedWith(error: LoopError) | AwaitingEnvironment

  function OutcomeOf(phase: Phase): RunOutcome {
    match phase
    case Ended => Complete
    case Halted(error) => FailedWith(error)
    case _ => AwaitingEnvironment
  }

  /** The inner loop: turns, as long as there are tool calls to react to or messages to inject. */
  method TakeTurns(config: LoopConfig, current: AgentContext, v: Locals, script: seq<TurnScript>, n: nat,
                   ghost begin: LoopState, ghost s: LoopState, ghost start: seq<AgentEvent>, sink: EventSink)
    returns (w: Locals, m: nat, phase: Phase, ghost x: LoopState)
    requires n <= |script| && Stands(config, begin, script, n, s) && Tracks(v, s) && !v.lastBatchTerminated
    requires current.messages == s.messages && sink.log == start + s.events
    requires v.hasMore || v.pending != []
    modifies current, sink
    ensures w.produced == x.produced && current.messages == x.messages && sink.log == start + x.events
    ensures !phase.Going? ==>
            x == RunTo(config, begin, script, |script|) && !x.phase.Ended? && OutcomeOf(phase) == OutcomeOf(x.phase)
    ensures phase.Going? ==>
            n < m <= |script| && Stands(config, begin, script, m, x) && Tracks(w, x) && !w.hasMore && w.pending == []
  {
    w, m, phase, x := v, n, Going, s;
    hide RunTo, TakeTurn, Settle, Stands, Tracks, CutShort, Recorded, GoesOn, Handed;
    while w.hasMore || w.pending != []
      invariant n <= m <= |script| && phase == Going
      invariant Stands(config, begin, script, m, x) && Tracks(w, x) && (m == n ==> w == v)
      invariant w.lastBatchTerminated ==> !w.hasMore && w.pending == []
      invariant current.messages == x.messages && sink.log == start + x.events
      decreases |script| - m
    {
      TracksGuard(w, x);
      StandsStill(config, begin, script, m, x);
      if m == |script| {
        phase := Stalled;
        return;
      }
      StandsNext(config, begin, script, m, x);
      ghost var before := x;
      x := TakeTurn(config, before, script[m]);
      w, phase := RunTurn(config, current, w, script[m], before, start, sink);
      if !phase.Going? {
        TakeTurnLaw(config, before, script[m]);
        return;
      }
      m := m + 1;
    }
    TracksGuard(w, x);
  }

  /** What the follow-up poll makes of a loop that has nothing more to do. */
  lemma StopIs(config: LoopConfig, begin: LoopState, script: seq<TurnScript>, n: nat, s: LoopState)
    requires 0 < n <= |script| && Stands(config, begin, script, n, s) && !s.hasMore && s.pending == []
    ensures s.turns != []
    ensures var y, asked := Settle(s, script[n - 1]), !LastTurn(s).terminated;
            && y.messages == s.messages && y.produced == s.produced && y.hookCalls == s.hookCalls
            && y.events == s.events + (if asked then [FollowUpPolled(script[n - 1].followUp)] else [])
            && |y.turns| == |s.turns| && LastTurn(y).terminated == LastTurn(s).terminated
            && (if asked && script[n - 1].followUp != [] then
                  y.pending == script[n - 1].followUp && y.hasMore && Stands(config, begin, script, n, y)
                else y.phase.Ended? && RunTo(config, begin, script, |script|) == y)
  {
    var y := Settle(s, script[n - 1]);
    NothingAdded(s.events);
    if y.phase.Going? {
      SettleIdle(y, script[n - 1]);
    } else {
      RunRests(config, begin, script, n, |script|);
    }
    hide RunTo, TakeTurn;
  }

  lemma BeginStands(config: LoopConfig, begin: LoopState, script: seq<TurnScript>, v: Locals)
    requires begin.phase.Going? && begin.turns == [] && begin.hasMore
    requires v == Locals(begin.produced, begin.pending, true, begin.hookCalls, 0, true, false)
    ensures Stands(config, begin, script, 0, begin) && Tracks(v, begin)
  {
  }

  /** The outer loop: turns until nothing more is to be done and no follow-up comes. */
  method InnerRun(config: LoopConfig, current: AgentContext, prompts: seq<AgentMessage>, steering: seq<AgentMessage>,
                  script: seq<TurnScript>, sink: EventSink)
    returns (outcome: RunOutcome, produced: seq<AgentMessage>)
    modifies current, sink
    ensures var s := RunTo(config, Begin(old(current.messages), prompts, steering), script, |script|);
            && outcome == OutcomeOf(s.phase) && produced == s.produced
            && current.messages == s.messages && sink.log == old(sink.log) + Trace(s)
  {
    ghost var begin := Begin(current.messages, prompts, steering);
    ghost var start := sink.log;
    sink.Emit(SteeringPolled(steering));
    var v := Locals(prompts, steering, true, 0, 0, true, false);
    var n: nat, phase := 0, Going;
    ghost var s := begin;
    BeginStands(config, begin, script, v);
    hide RunTo, Stands, Settle, Tracks, Begin;
    while true
      invariant n <= |script| && Stands(config, begin, script, n, s) && Tracks(v, s) && !v.lastBatchTerminated
      invariant current.messages == s.messages && sink.log == start + s.events
      invariant v.hasMore || v.pending != []
      decreases |script| - n
    {
      v, n, phase, s := TakeTurns(config, current, v, script, n, begin, s, start, sink);
      if !phase.Going? {
        NothingAdded(s.events);
        return OutcomeOf(phase), v.produced;
      }
      TracksGuard(v, s);
      StopIs(config, begin, script, n, s);
      TracksLast(v, s);
      ghost var settled := Settle(s, script[n - 1]);
      var followUp := [];
      if !v.lastBatchTerminated {
        sink.Emit(FollowUpPolled(script[n - 1].followUp));
        followUp := script[n - 1].followUp;
      }
      RegroupFollowUp(start, s.events, if v.lastBatchTerminated then [] else [FollowUpPolled(script[n - 1].followUp)]);
      if followUp == [] {
        sink.Emit(AgentEnd(v.produced));
        RegroupFollowUp(start, settled.events, [AgentEnd(v.produced)]);
        return Complete, v.produced;
      }
      TracksFollowUp(v, s, settled);
      v := v.(pending := followUp, hasMore := true);
      s := settled;
    }
  }

  lemma RegroupFollowUp(a: seq<AgentEvent>, b: seq<AgentEvent>, c: seq<AgentEvent>)
    ensures (a + b) + c == a + (b + c)
    ensures (a + b) + [] == a + b
  {
  }

  lemma TracksLast(v: Locals, s: LoopState)
    requires Tracks(v, s) && s.turns != []
    ensures v.lastBatchTerminated == LastTurn(s).terminated
  {
  }

  lemma TracksFollowUp(v: Locals, s: LoopState, y: LoopState)
    requires Tracks(v, s) && s.turns != [] && |y.turns| == |s.turns| && LastTurn(y).terminated == LastTurn(s).terminated
    requires y.produced == s.produced && y.hookCalls == s.hookCalls
    ensures Tracks(v.(pending := y.pending, hasMore := y.hasMore), y)
  {
  }

  // ----- the entry points

  datatype RunResult = RunOk(messages: seq<AgentMessage>) | RunErr(error: LoopError) | RunWaiting

  /** What the caller is handed: the messages of a run that ended, the error of one that failed. */
  ghost predicate Returns(s: LoopState, result: RunResult) {
    match s.phase
    case Ended => result == RunOk(s.produced)
    case Halted(error) => result == RunErr(error)
    case _ => result == RunWaiting
  }

  method Announce(identity: Option<string>, sink: EventSink)
    modifies sink
    ensures sink.log == old(sink.log) + RunOpening(identity)
  {
    sink.Emit(AgentStart);
    if identity.Some? {
      sink.Emit(RunIdentified(identity.value));
    }
    sink.Emit(TurnStart);
  }

  method Run(config: LoopConfig, prompts: seq<AgentMessage>, context: seq<AgentMessage>, identity: Option<string>,
             steering: seq<AgentMessage>, script: seq<TurnScript>, sink: EventSink)
    returns (result: RunResult)
    modifies sink
    ensures var s := RunTo(config, Begin(context + prompts, prompts, steering), script, |script|);
            Returns(s, result) && sink.log == old(sink.log) + (RunOpening(identity) + Trace(s))
  {
    hide RunTo, Trace, RunOpening;
    var current := new AgentContext(context);
    var produced := PushAll(current, [], prompts);
    NothingAdded(prompts);
    Announce(identity, sink);
    var outcome, messages := InnerRun(config, current, prompts, steering, script, sink);
    match outcome {
      case Complete => result := RunOk(messages);
      case FailedWith(error) => result := RunErr(error);
      case AwaitingEnvironment => result := RunWaiting;
    }
  }

  /** A context can be continued unless it is empty or ends with the model's own message; a refusal reports nothing. */
  predicate Continuable(context: seq<AgentMessage>) {
    context != [] && !context[|context| - 1].Assistant?
  }

  method RunContinue(config: LoopConfig, context: seq<AgentMessage>, identity: Option<string>,
                     steering: seq<AgentMessage>, script: seq<TurnScript>, sink: EventSink)
    returns (result: RunResult)
    modifies sink
    ensures !Continuable(context) ==> result == RunErr(InvalidContinuation) && sink.log == old(sink.log)
    ensures Continuable(context) ==>
              var s := RunTo(config, Begin(context, [], steering), script, |script|);
              Returns(s, result) && sink.log == old(sink.log) + (RunOpening(identity) + Trace(s))
  {
    hide RunTo, Trace, RunOpening;
    if |context| == 0 {
      return RunErr(InvalidContinuation);
    }
    if context[|context| - 1].Assistant? {
      return RunErr(InvalidContinuation);
    }
    var current := new AgentContext(context);
    Announce(identity, sink);
    var outcome, messages := InnerRun(config, current, [], steering, script, sink);
    match outcome {
      case Complete => result := RunOk(messages);
      case FailedWith(error) => result := RunErr(error);
      case AwaitingEnvironment => result := RunWaiting;
    }
  }
}

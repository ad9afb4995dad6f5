/** Laws of whole runs of the agent loop. */
module RunTheorems {
  import opened Wrappers
  import opened Transcript
  import opened Config
  import opened ToolCallCap
  import opened Dispatch
  import opened BatchExecution
  import opened Streaming
  import opened AgentLoop
  import Parallel

  /*
   They hold for any provider, tools, hooks, message sources and cancellation: the shape of the
   transcript, when a run ends, what becomes of polled messages, and the grammar of its events.
   */

  // ----- answers

  /** How many of the messages are results for the call id. */
  function CountAnswers(messages: seq<AgentMessage>, id: string): nat {
    if messages == [] then 0
    else
      var last := messages[|messages| - 1];
      CountAnswers(messages[..|messages| - 1], id) + (if last.ToolResult? && last.toolCallId == id then 1 else 0)
  }

  lemma {:induction false} ReportsAnswer(reports: seq<CallReport>, id: string)
    ensures CountAnswers(Messages(reports), id) == CountId(Calls(reports), id)
    decreases |reports|
  {
    if reports != [] {
      var front, last := reports[..|reports| - 1], reports[|reports| - 1];
      ReportsAnswer(front, id);
      assert Messages(reports)[..|front|] == Messages(front);
      CountIdAppend(Calls(front), [last.call], id);
    }
  }

  /** A policy that keeps ids keeps how often each occurs. */
  lemma {:induction false} SameIdsSameCount(a: seq<ToolCall>, b: seq<ToolCall>, id: string)
    requires |a| == |b| && forall k :: 0 <= k < |a| ==> a[k].id == b[k].id
    ensures CountId(a, id) == CountId(b, id)
  {
    if a != [] {
      SameIdsSameCount(a[1..], b[1..], id);
    }
  }

  lemma PolicyKeepsCounts(config: LoopConfig, calls: seq<ToolCall>, id: string)
    requires KeepsCallIds(config)
    ensures CountId(NormalizeCalls(config, calls), id) == CountId(calls, id)
  {
    SameIdsSameCount(NormalizeCalls(config, calls), calls, id);
  }

  /** A turn whose assistant called tools is followed at once by exactly one result per call. */
  lemma TurnAnswersAll(config: LoopConfig, t: Turn, id: string)
    requires TurnShape(config, t) && ToolCalls(t.assistant) != [] && KeepsCallIds(config)
    ensures CountAnswers(Results(t), id) == CountId(ToolCalls(t.assistant), id)
    ensures TurnMessages(t) == t.injected + [t.assistant] + Results(t)
  {
    var norm := NormalizeCalls(config, ToolCalls(t.assistant));
    var cap := config.maxToolCallsPerTurn;
    ReportsAnswer(t.reports, id);
    CountIdAppend(Executable(config.tools, norm, cap), Deferred(config.tools, norm, cap), id);
    SplitConserves(config.tools, norm, cap);
    PolicyKeepsCounts(config, ToolCalls(t.assistant), id);
  }

  /** A quiet or nudged turn adds no result at all, a delivered one exactly the synthesized result. */
  lemma PlainTurnResults(config: LoopConfig, t: Turn)
    requires TurnShape(config, t) && ToolCalls(t.assistant) == []
    ensures Results(t) == if t.reaction.Deliver? then [t.reaction.result] else []
    ensures t.terminated <==> t.reaction.Deliver?
  {
  }

  // ----- the transcript of a finished run

  /**
   A normal return: the produced messages are the prompts followed by those of the recorded
   turns, every turn's assistant calls are answered right after it, and a synthesized fallback
   result can only be the very last message.
   */
  lemma FinishedTranscript(config: LoopConfig, start: LoopState, script: seq<TurnScript>, n: nat)
    requires Fresh(start) && n <= |script| && KeepsCallIds(config)
    ensures var s := RunTo(config, start, script, n);
            s.phase.Ended? ==>
              && s.turns != []
              && s.produced == start.produced + AllMessages(s.turns)
              && s.messages == LiveAfter(start.messages, s.turns)
              && (Unshrunk(s.turns) ==> s.messages == start.messages + AllMessages(s.turns))
              && (forall k, id :: 0 <= k < |s.turns| && ToolCalls(s.turns[k].assistant) != [] ==>
                    CountAnswers(Results(s.turns[k]), id) == CountId(ToolCalls(s.turns[k].assistant), id))
              && (forall k :: 0 <= k < |s.turns| ==>
                    ToolCalls(s.turns[k].assistant) == [] && Results(s.turns[k]) != [] ==>
                      && k == |s.turns| - 1 && s.turns[k].reaction.Deliver?
                      && Results(s.turns[k]) == [s.produced[|s.produced| - 1]])
  {
    RunLaws(config, start, script, n);
    var s := RunTo(config, start, script, n);
    if s.phase.Ended? {
      if Unshrunk(s.turns) {
        LiveUnshrunk(start.messages, s.turns);
      }
      hide LiveAfter, TurnShape, Results, TurnMessages, AllMessages, AllEvents, RunTo, CountAnswers, CountId, Unshrunk,
           Continues, KeepsCallIds;
      forall k: nat, id | k < |s.turns| && ToolCalls(s.turns[k].assistant) != []
        ensures CountAnswers(Results(s.turns[k]), id) == CountId(ToolCalls(s.turns[k].assistant), id)
      {
        assert Proper(config, start, s.turns, k);
        TurnAnswersAll(config, s.turns[k], id);
      }
      forall k: nat | k < |s.turns| && ToolCalls(s.turns[k].assistant) == [] && Results(s.turns[k]) != []
        ensures k == |s.turns| - 1 && s.turns[k].reaction.Deliver?
                && Results(s.turns[k]) == [s.produced[|s.produced| - 1]]
      {
        assert Proper(config, start, s.turns, k);
        PlainTurnResults(config, s.turns[k]);
        DeliveredIsLast(config, start, s, k);
      }
    }
  }

  lemma DeliveredIsLast(config: LoopConfig, start: LoopState, s: LoopState, k: nat)
    requires Chronicle(config, start, s.turns) && k < |s.turns| && s.turns[k].reaction.Deliver?
    requires s.produced == start.produced + AllMessages(s.turns)
    ensures k == |s.turns| - 1 && s.produced != [] && Results(s.turns[k]) == [s.produced[|s.produced| - 1]]
  {
    var t := s.turns[k];
    assert t.terminated by {
      hide AnswersEach, Reacted, StartsPermitted, StreamEventsOnly, Requested, Performed;
      assert Proper(config, start, s.turns, k);
    }
    assert k == |s.turns| - 1;
    hide Chronicle, TurnShape;
    assert AllMessages(s.turns) == AllMessages(s.turns[..k]) + TurnMessages(t);
    hide AllMessages;
    LastIsResult(start.produced, AllMessages(s.turns[..k]), t);
  }

  lemma LastIsResult(produced: seq<AgentMessage>, before: seq<AgentMessage>, t: Turn)
    requires t.reaction.Deliver?
    ensures var all := produced + (before + TurnMessages(t));
            all != [] && Results(t) == [all[|all| - 1]]
  {
    assert TurnMessages(t) == t.injected + [t.assistant] + [t.reaction.result] + [];
  }

  // ----- when a run ends

  /**
   The run is over behind this turn: it terminated, or neither it nor the sources that were then
   asked wanted more.
   */
  ghost predicate Over(t: Turn) {
    || t.terminated
    || (ToolCalls(t.assistant) == [] && !t.reaction.Nudge? && t.steering == Some([]) && t.followUp == Some([]))
  }

  /**
   The run goes on behind this turn: there are results or a nudge for the model to see, or a source
   handed something out.
   */
  ghost predicate MovesOn(t: Turn) {
    && !t.terminated
    && (ToolCalls(t.assistant) != [] || t.reaction.Nudge?
        || (t.steering.Some? && t.steering.value != []) || (t.followUp.Some? && t.followUp.value != []))
  }

  /** Steering is asked unless the turn terminated; follow-ups are asked exactly when nothing else wants more. */
  ghost predicate AsksSources(t: Turn) {
    && (t.steering.Some? <==> !t.terminated)
    && (t.followUp.Some? <==>
          !t.terminated && ToolCalls(t.assistant) == [] && !t.reaction.Nudge? && t.steering == Some([]))
  }

  /** What makes a turn terminate: it delivered a fallback, or its batch deferred no call and agreed to stop. */
  ghost predicate Terminates(config: LoopConfig, t: Turn) {
    || t.reaction.Deliver?
    || (ToolCalls(t.assistant) != [] && DeferredCallsOf(config, t.assistant) == []
        && AgreeToStop(config.tools, t.reports))
  }

  /**
   The termination latch, in every state of every run, whether going, returned, failed or
   waiting: a run that has returned did so at a turn behind which it is over; in any other state
   the last recorded turn moved on, as did every turn before it. So once a turn terminates, which it
   does exactly when it delivered a fallback or its whole batch ran and voted to stop, nothing more
   is streamed or polled, and no error can follow.
   */
  lemma EndsExactlyAtFinalTurn(config: LoopConfig, start: LoopState, script: seq<TurnScript>, n: nat)
    requires Fresh(start) && n <= |script|
    ensures var s := RunTo(config, start, script, n);
            && (s.phase.Ended? ==> s.turns != [] && Over(LastTurn(s)))
            && (!s.phase.Ended? && s.turns != [] ==> MovesOn(LastTurn(s)) && !Over(LastTurn(s)))
            && (forall k :: 0 <= k < |s.turns| - 1 ==> MovesOn(s.turns[k]) && !Over(s.turns[k]))
            && (forall k :: 0 <= k < |s.turns| ==> AsksSources(s.turns[k]))
            && (forall k :: 0 <= k < |s.turns| ==> (s.turns[k].terminated <==> Terminates(config, s.turns[k])))
            && (forall k :: 0 <= k < |s.turns| && s.turns[k].terminated ==> s.phase.Ended? && k == |s.turns| - 1)
            && (s.phase.Ended? && LastTurn(s).terminated ==>
                  Trace(s) == start.events + AllEvents(s.turns[..|s.turns| - 1]) + OpeningEvents(|s.turns| - 1)
                              + LastTurn(s).streamEvents + ToolEvents(LastTurn(s).sequential, LastTurn(s).reports)
                              + [TurnEnd(LastTurn(s).assistant, Results(LastTurn(s))), AgentEnd(s.produced)])
  {
    hide *;
    RunLaws(config, start, script, n);
    var s := RunTo(config, start, script, n);
    OnlyLastIsFinal(config, start, s);
    TerminatedExactly(config, start, s);
    forall t: Turn
      ensures Final(t) <==> t.terminated || (Quiet(t) && t.followUp == Some([]))
      ensures (Final(t) ==> Over(t)) && (Continues(t) ==> MovesOn(t)) && (Over(t) && AsksSources(t) ==> Final(t))
    {
      FinalIsOver(t);
    }
    forall k | 0 <= k < |s.turns|
      ensures AsksSources(s.turns[k]) && (s.turns[k].terminated <==> Terminates(config, s.turns[k]))
    {
      TurnAsksSources(config, start, s, k);
      TerminatesExactly(config, s.turns[k]);
    }
    if s.turns != [] {
      LastIsLast(s);
    }
    if s.phase.Ended? && LastTurn(s).terminated {
      TerminatedTrace(config, start, s);
    }
  }

  lemma LastIsLast(s: LoopState)
    requires s.turns != []
    ensures LastTurn(s) == s.turns[|s.turns| - 1]
  {
  }

  lemma FinalIsOver(t: Turn)
    ensures Final(t) <==> t.terminated || (Quiet(t) && t.followUp == Some([]))
    ensures (Final(t) ==> Over(t)) && (Continues(t) ==> MovesOn(t)) && (Over(t) && AsksSources(t) ==> Final(t))
  {
    if Continues(t) && t.steering.Some? && t.followUp.Some? {
      NothingAdded(t.steering.value);
      NothingAdded(t.followUp.value);
    }
  }

  lemma TurnAsksSources(config: LoopConfig, start: LoopState, s: LoopState, k: nat)
    requires LoopInv(config, start, s) && k < |s.turns|
    ensures AsksSources(s.turns[k])
  {
    hide Books, Interrupted, StopsRun, Requested, Performed, Injection, Reacted, AnswersEach, StreamEventsOnly,
         Continues, Final;
    assert Proper(config, start, s.turns, k);
    if s.turns[k].terminated {
      TerminatedCalls(config, s.turns[k]);
    }
  }

  lemma TerminatedCalls(config: LoopConfig, t: Turn)
    requires TurnShape(config, t) && t.terminated
    ensures t.steering.None?
  {
    hide StopsRun, Reacted, AnswersEach, StreamEventsOnly;
  }

  lemma TerminatesExactly(config: LoopConfig, t: Turn)
    ensures StopsRun(config, t) <==> Terminates(config, t)
  {
    VoteExactly(config.tools, t.reports);
    hide UnanimousStop, AgreeToStop, Votes;
  }

  lemma OnlyLastIsFinal(config: LoopConfig, start: LoopState, s: LoopState)
    requires LoopInv(config, start, s)
    ensures s.phase.Ended? ==> s.turns != [] && Final(LastTurn(s))
    ensures !s.phase.Ended? && s.turns != [] ==> Continues(LastTurn(s)) && !Final(LastTurn(s))
    ensures forall k :: 0 <= k < |s.turns| - 1 ==> Continues(s.turns[k]) && !Final(s.turns[k])
  {
    hide Books, Interrupted, Proper;
    forall k | 0 <= k < |s.turns| - 1 ensures Continues(s.turns[k]) && !Final(s.turns[k]) {
      assert Continues(s.turns[k]);
      ContinuesIsNotFinal(s.turns[k]);
    }
    if s.turns != [] {
      ContinuesIsNotFinal(LastTurn(s));
    }
  }

  lemma TerminatedExactly(config: LoopConfig, start: LoopState, s: LoopState)
    requires LoopInv(config, start, s)
    ensures forall k :: 0 <= k < |s.turns| ==> (s.turns[k].terminated <==> StopsRun(config, s.turns[k]))
    ensures forall k :: 0 <= k < |s.turns| && s.turns[k].terminated ==> s.phase.Ended? && k == |s.turns| - 1
  {
    hide Books, Interrupted, StopsRun, Requested, Performed, Injection, Reacted, AnswersEach, StartsPermitted,
         StreamEventsOnly;
    forall k: nat | k < |s.turns|
      ensures s.turns[k].terminated <==> StopsRun(config, s.turns[k])
      ensures s.turns[k].terminated ==> s.phase.Ended? && k == |s.turns| - 1
    {
      assert Proper(config, start, s.turns, k);
      ContinuesIsNotFinal(s.turns[k]);
      if k < |s.turns| - 1 {
        assert Continues(s.turns[k]);
      }
    }
  }

  lemma ContinuesIsNotFinal(t: Turn)
    ensures !(Continues(t) && (Final(t) || t.terminated))
  {
  }

  lemma RegroupEnd(a: seq<AgentEvent>, b: seq<AgentEvent>, o: seq<AgentEvent>, r: seq<AgentEvent>, c: seq<AgentEvent>,
                   x: AgentEvent, y: AgentEvent)
    ensures a + (b + o + (r + c + [x] + [])) + [y] == a + b + o + r + c + [x, y]
  {
  }

  lemma TerminatedTrace(config: LoopConfig, start: LoopState, s: LoopState)
    requires LoopInv(config, start, s) && s.phase.Ended? && LastTurn(s).terminated
    ensures Trace(s) == start.events + AllEvents(s.turns[..|s.turns| - 1]) + OpeningEvents(|s.turns| - 1)
                        + LastTurn(s).streamEvents + ToolEvents(LastTurn(s).sequential, LastTurn(s).reports)
                        + [TurnEnd(LastTurn(s).assistant, Results(LastTurn(s))), AgentEnd(s.produced)]
  {
    var t := LastTurn(s);
    TerminatedPolls(config, start, s);
    assert BodyEvents(t)
      == t.streamEvents + ToolEvents(t.sequential, t.reports) + [TurnEnd(t.assistant, Results(t))] + [];
    EndedTrace(config, start, s);
    hide *;
    RegroupEnd(start.events, AllEvents(s.turns[..|s.turns| - 1]), OpeningEvents(|s.turns| - 1), t.streamEvents,
               ToolEvents(t.sequential, t.reports), TurnEnd(t.assistant, Results(t)), AgentEnd(s.produced));
  }

  lemma TerminatedPolls(config: LoopConfig, start: LoopState, s: LoopState)
    requires LoopInv(config, start, s) && s.turns != [] && LastTurn(s).terminated
    ensures PollEvents(LastTurn(s)) == []
  {
    hide Books, Interrupted, Continues, Final, StopsRun, Requested, Performed, Reacted, AnswersEach, StartsPermitted,
         StreamEventsOnly;
    var last: nat := |s.turns| - 1;
    assert Proper(config, start, s.turns, last);
  }

  lemma EndedTrace(config: LoopConfig, start: LoopState, s: LoopState)
    requires LoopInv(config, start, s) && s.phase.Ended?
    ensures Trace(s) == start.events
            + (AllEvents(s.turns[..|s.turns| - 1]) + OpeningEvents(|s.turns| - 1) + BodyEvents(LastTurn(s)))
              + [AgentEnd(s.produced)]
  {
    hide Chronicle, BodyEvents, OpeningEvents, AllMessages, Final;
  }

  // ----- polled messages

  /** What the polls in a trace handed out, in order. */
  function Polled(events: seq<AgentEvent>): seq<AgentMessage> {
    if events == [] then []
    else
      Polled(events[..|events| - 1])
      + (match events[|events| - 1]
         case SteeringPolled(messages) => messages
         case FollowUpPolled(messages) => messages
         case _ => [])
  }

  /** Everything the turns injected, in order. */
  function Injected(turns: seq<Turn>): seq<AgentMessage> {
    if turns == [] then [] else Injected(turns[..|turns| - 1]) + turns[|turns| - 1].injected
  }

  predicate PollFree(e: AgentEvent) {
    !e.SteeringPolled? && !e.FollowUpPolled?
  }

  predicate PollFreeAll(events: seq<AgentEvent>) {
    forall k :: 0 <= k < |events| ==> PollFree(events[k])
  }

  lemma {:induction false} PolledAppend(a: seq<AgentEvent>, b: seq<AgentEvent>)
    ensures Polled(a + b) == Polled(a) + Polled(b)
    decreases |b|
  {
    if b == [] {
      NothingAdded(a);
      NothingAdded(Polled(a));
    } else {
      assert (a + b)[..|a + b| - 1] == a + b[..|b| - 1];
      PolledAppend(a, b[..|b| - 1]);
    }
  }

  lemma {:induction false} NothingPolled(events: seq<AgentEvent>)
    requires PollFreeAll(events)
    ensures Polled(events) == []
    decreases |events|
  {
    if events != [] {
      assert PollFree(events[|events| - 1]);
      NothingPolled(events[..|events| - 1]);
    }
  }

  lemma PolledOne(e: AgentEvent)
    ensures Polled([e]) == match e case SteeringPolled(m) => m case FollowUpPolled(m) => m case _ => []
  {
    assert [e][..0] == [];
    assert Polled([]) == [];
  }

  lemma {:induction false} ToolEventsPollFree(reports: seq<CallReport>)
    ensures PollFreeAll(CallEventsOf(reports)) && PollFreeAll(StartsOf(reports))
            && PollFreeAll(Parallel.EndEvents(reports))
    decreases |reports|
  {
    if reports != [] {
      ToolEventsPollFree(reports[..|reports| - 1]);
    }
  }

  lemma BodyPolls(t: Turn)
    requires StreamEventsOnly(t.streamEvents)
    ensures Polled(BodyEvents(t)) == Handed(t)
  {
    var tools, end, polls := ToolEvents(t.sequential, t.reports), [TurnEnd(t.assistant, Results(t))], PollEvents(t);
    ToolEventsPollFree(t.reports);
    assert PollFreeAll(t.streamEvents) by {
      forall k | 0 <= k < |t.streamEvents| ensures PollFree(t.streamEvents[k]) {
        assert IsStreamEvent(t.streamEvents[k]);
      }
    }
    assert PollFreeAll(tools);
    NothingPolled(t.streamEvents);
    NothingPolled(tools);
    NothingPolled(end);
    PolledAppend(t.streamEvents, tools);
    PolledAppend(t.streamEvents + tools, end);
    PolledAppend(t.streamEvents + tools + end, polls);
    PollsPolled(t);
    hide ToolEvents, PollEvents, Handed, Polled;
    NothingAdded(Handed(t));
  }

  lemma PollsPolled(t: Turn)
    ensures Polled(PollEvents(t)) == Handed(t)
  {
    var a := if t.steering.Some? then [SteeringPolled(t.steering.value)] else [];
    var b := if t.followUp.Some? then [FollowUpPolled(t.followUp.value)] else [];
    PolledAppend(a, b);
    if t.steering.Some? { PolledOne(SteeringPolled(t.steering.value)); }
    if t.followUp.Some? { PolledOne(FollowUpPolled(t.followUp.value)); }
    assert Polled([]) == [];
  }

  lemma TurnFacts(config: LoopConfig, start: LoopState, turns: seq<Turn>, k: nat)
    requires Chronicle(config, start, turns) && k < |turns|
    ensures StreamEventsOnly(turns[k].streamEvents) && turns[k].injected == Injection(start, turns, k)
    ensures turns[..k + 1] == turns[..k] + [turns[k]]
  {
    hide Performed, AnswersEach, Reacted, StopsRun, StreamEventsOnly, Injection, Continues, FollowUpAsked;
    assert Proper(config, start, turns, k);
  }

  /** Up to any turn, the polls so far gave exactly what the turns injected plus what the next one will inject. */
  lemma {:induction false} PolledSoFar(config: LoopConfig, start: LoopState, turns: seq<Turn>, n: nat)
    requires Chronicle(config, start, turns) && n <= |turns|
    ensures start.pending + Polled(AllEvents(turns[..n])) == Injected(turns[..n]) + Injection(start, turns, n)
    decreases n
  {
    hide Chronicle, Handed, StreamEventsOnly, OpeningEvents, BodyEvents;
    if n == 0 {
      assert turns[..0] == [] && Polled(AllEvents([])) == [] && Injected([]) == [];
      hide *;
      NothingAdded(start.pending);
    } else {
      PolledSoFar(config, start, turns, n - 1);
      TurnFacts(config, start, turns, n - 1);
      assert Injection(start, turns, n) == Handed(turns[n - 1]);
      PolledStep(turns[..n - 1], turns[n - 1]);
      AssociateMessages(start.pending, Polled(AllEvents(turns[..n - 1])), Handed(turns[n - 1]));
    }
  }

  lemma PolledStep(turns: seq<Turn>, t: Turn)
    requires StreamEventsOnly(t.streamEvents)
    ensures Polled(AllEvents(turns + [t])) == Polled(AllEvents(turns)) + [] + Handed(t)
    ensures Injected(turns + [t]) == Injected(turns) + t.injected
  {
    var open := OpeningEvents(|turns|);
    AllSnoc(turns, t);
    assert (turns + [t])[..|turns|] == turns;
    NothingPolled(open);
    PolledAppend(AllEvents(turns), open);
    PolledAppend(AllEvents(turns) + open, BodyEvents(t));
    BodyPolls(t);
    hide Polled, AllEvents, OpeningEvents, BodyEvents, Handed;
  }

  lemma AssociateMessages(a: seq<AgentMessage>, b: seq<AgentMessage>, c: seq<AgentMessage>)
    ensures a + (b + [] + c) == (a + b) + c
  {
  }

  /**
   Every message a steering or follow-up source hands out is appended to the transcript exactly
   once, in the order it was handed out; a run that returns normally leaves none behind.
   */
  lemma PolledOnceInOrder(config: LoopConfig, start: LoopState, script: seq<TurnScript>, n: nat)
    requires Fresh(start) && n <= |script| && start.events == [SteeringPolled(start.pending)]
    ensures var s := RunTo(config, start, script, n);
            && (s.phase.Going? ==> Polled(Trace(s)) == Injected(s.turns) + s.pending)
            && (s.phase.Ended? ==> Polled(Trace(s)) == Injected(s.turns))
  {
    RunLaws(config, start, script, n);
    var s := RunTo(config, start, script, n);
    if s.phase.Going? || s.phase.Ended? {
      PolledSoFar(config, start, s.turns, |s.turns|);
      assert s.turns[..|s.turns|] == s.turns;
      PolledOne(SteeringPolled(start.pending));
      PolledAppend(start.events, AllEvents(s.turns));
      if s.phase.Ended? {
        PolledOne(AgentEnd(s.produced));
        PolledAppend(s.events, [AgentEnd(s.produced)]);
        FinalHandsNothing(config, start, s);
      }
      hide Polled, Chronicle, RunTo, AllEvents, Injection, Injected, LastTurn, Final, Continues;
      NothingAdded(Injected(s.turns));
      NothingAdded(Polled(s.events));
      NothingAdded(s.events);
    }
  }

  lemma FinalHandsNothing(config: LoopConfig, start: LoopState, s: LoopState)
    requires LoopInv(config, start, s) && s.phase.Ended?
    ensures s.pending == []
  {
    hide AllMessages, AllEvents, Unshrunk, TurnShape, Handed, Continues, Final, FollowUpAsked, Interrupted;
    var last: nat := |s.turns| - 1;
    assert Proper(config, start, s.turns, last);
    FinalTurnHandsNothing(config, s.turns[last]);
  }

  lemma FinalTurnHandsNothing(config: LoopConfig, t: Turn)
    requires TurnShape(config, t) && FollowUpAsked(t) && Final(t)
    ensures Handed(t) == []
  {
    hide AnswersEach, UnanimousStop, Votes, StreamEventsOnly, ToolCalls, GoesOn;
  }

  // ----- the number of turns

  /** How many TurnStart (opening == true) or TurnEnd (opening == false) events a trace holds. */
  function CountBrackets(events: seq<AgentEvent>, opening: bool): nat {
    if events == [] then 0
    else
      var last := events[|events| - 1];
      CountBrackets(events[..|events| - 1], opening)
        + (if (if opening then last.TurnStart? else last.TurnEnd?) then 1 else 0)
  }

  predicate Bracket(e: AgentEvent) {
    e.TurnStart? || e.TurnEnd?
  }

  predicate NoBracket(events: seq<AgentEvent>) {
    forall k :: 0 <= k < |events| ==> !Bracket(events[k])
  }

  lemma {:induction false} BracketsAppend(a: seq<AgentEvent>, b: seq<AgentEvent>, opening: bool)
    ensures CountBrackets(a + b, opening) == CountBrackets(a, opening) + CountBrackets(b, opening)
    decreases |b|
  {
    if b == [] {
      NothingAdded(a);
    } else {
      assert (a + b)[..|a + b| - 1] == a + b[..|b| - 1];
      BracketsAppend(a, b[..|b| - 1], opening);
    }
  }

  lemma {:induction false} NoBracketsCounted(events: seq<AgentEvent>, opening: bool)
    requires NoBracket(events)
    ensures CountBrackets(events, opening) == 0
    decreases |events|
  {
    if events != [] {
      assert !Bracket(events[|events| - 1]);
      NoBracketsCounted(events[..|events| - 1], opening);
    }
  }

  lemma BracketsOfOne(e: AgentEvent, opening: bool)
    ensures CountBrackets([e], opening) == if (if opening then e.TurnStart? else e.TurnEnd?) then 1 else 0
  {
    assert [e][..0] == [] && CountBrackets([], opening) == 0;
  }

  lemma {:induction false} ToolEventsUnbracketed(reports: seq<CallReport>)
    ensures NoBracket(CallEventsOf(reports)) && NoBracket(StartsOf(reports)) && NoBracket(Parallel.EndEvents(reports))
    decreases |reports|
  {
    if reports != [] {
      ToolEventsUnbracketed(reports[..|reports| - 1]);
    }
  }

  lemma BodyBrackets(t: Turn, opening: bool)
    requires StreamEventsOnly(t.streamEvents)
    ensures CountBrackets(BodyEvents(t), opening) == if opening then 0 else 1
  {
    var tools, end, polls := ToolEvents(t.sequential, t.reports), [TurnEnd(t.assistant, Results(t))], PollEvents(t);
    ToolEventsUnbracketed(t.reports);
    assert NoBracket(t.streamEvents) by {
      forall k | 0 <= k < |t.streamEvents| ensures !Bracket(t.streamEvents[k]) {
        assert IsStreamEvent(t.streamEvents[k]);
      }
    }
    assert NoBracket(tools);
    assert NoBracket(polls);
    NoBracketsCounted(t.streamEvents, opening);
    NoBracketsCounted(tools, opening);
    NoBracketsCounted(polls, opening);
    BracketsOfOne(end[0], opening);
    BracketsAppend(t.streamEvents, tools, opening);
    BracketsAppend(t.streamEvents + tools, end, opening);
    BracketsAppend(t.streamEvents + tools + end, polls, opening);
  }

  lemma {:induction false} TurnBrackets(config: LoopConfig, start: LoopState, turns: seq<Turn>, n: nat, opening: bool)
    requires Chronicle(config, start, turns) && n <= |turns|
    ensures CountBrackets(AllEvents(turns[..n]), opening) == if opening && n > 0 then n - 1 else n
    decreases n
  {
    hide Chronicle, StreamEventsOnly, OpeningEvents, BodyEvents;
    if n == 0 {
      assert turns[..0] == [];
    } else {
      TurnBrackets(config, start, turns, n - 1, opening);
      TurnFacts(config, start, turns, n - 1);
      hide CountBrackets, AllEvents;
      BracketStep(turns[..n - 1], turns[n - 1], opening);
    }
  }

  lemma BracketStep(turns: seq<Turn>, t: Turn, opening: bool)
    requires StreamEventsOnly(t.streamEvents)
    ensures CountBrackets(AllEvents(turns + [t]), opening)
         == CountBrackets(AllEvents(turns), opening) + if opening && turns == [] then 0 else 1
  {
    var open := OpeningEvents(|turns|);
    AllSnoc(turns, t);
    BracketsOfOne(TurnStart, opening);
    assert CountBrackets([], opening) == 0;
    BracketsAppend(AllEvents(turns), open, opening);
    BracketsAppend(AllEvents(turns) + open, BodyEvents(t), opening);
    BodyBrackets(t, opening);
    hide CountBrackets, AllEvents, BodyEvents, StreamEventsOnly;
  }

  // ----- the events of a whole run

  /** What a run announces before the loop starts; the first turn's TurnStart is part of it. */
  function RunOpening(identity: Option<string>): seq<AgentEvent> {
    [AgentStart] + (if identity.Some? then [RunIdentified(identity.value)] else []) + [TurnStart]
  }

  /**
   A normal return's events: AgentStart, an optional RunIdentified, then per turn a TurnStart,
   the stream's events, the tools' events and a TurnEnd carrying the turn's results, and at last
   AgentEnd carrying the produced messages; as many TurnStart and TurnEnd events as recorded turns.
   */
  lemma FinishedTrace(config: LoopConfig, identity: Option<string>, start: LoopState, script: seq<TurnScript>, n: nat)
    requires Fresh(start) && n <= |script| && start.events == [SteeringPolled(start.pending)]
    ensures var s := RunTo(config, start, script, n);
            s.phase.Ended? ==>
              && RunOpening(identity) + Trace(s)
                 == RunOpening(identity)
                   + ([SteeringPolled(start.pending)] + AllEvents(s.turns) + [AgentEnd(s.produced)])
              && CountBrackets(RunOpening(identity) + Trace(s), true) == |s.turns|
              && CountBrackets(RunOpening(identity) + Trace(s), false) == |s.turns|
  {
    RunLaws(config, start, script, n);
    var s := RunTo(config, start, script, n);
    if s.phase.Ended? {
      FinishedBrackets(config, identity, start, s, true);
      FinishedBrackets(config, identity, start, s, false);
      hide CountBrackets, Chronicle, RunTo, AllEvents, Injection, LastTurn, Final;
    }
  }

  lemma OpeningBrackets(identity: Option<string>, opening: bool)
    ensures CountBrackets(RunOpening(identity), opening) == if opening then 1 else 0
  {
    var middle := if identity.Some? then [RunIdentified(identity.value)] else [];
    BracketsOfOne(AgentStart, opening);
    BracketsOfOne(TurnStart, opening);
    NoBracketsCounted(middle, opening);
    BracketsAppend([AgentStart], middle, opening);
    BracketsAppend([AgentStart] + middle, [TurnStart], opening);
  }

  lemma FinishedBrackets(config: LoopConfig, identity: Option<string>, start: LoopState, s: LoopState, opening: bool)
    requires LoopInv(config, start, s) && s.phase.Ended? && start.events == [SteeringPolled(start.pending)]
    ensures CountBrackets(RunOpening(identity) + Trace(s), opening) == |s.turns|
  {
    hide CountBrackets, Chronicle, AllEvents, AllMessages, Unshrunk, RunOpening, Injection, Final, Continues,
         Interrupted;
    TurnBrackets(config, start, s.turns, |s.turns|, opening);
    assert s.turns[..|s.turns|] == s.turns;
    OpeningBrackets(identity, opening);
    BracketsOfOne(SteeringPolled(start.pending), opening);
    BracketsOfOne(AgentEnd(s.produced), opening);
    BracketsAppend(start.events, AllEvents(s.turns), opening);
    BracketsAppend(s.events, [AgentEnd(s.produced)], opening);
    BracketsAppend(RunOpening(identity), Trace(s), opening);
  }

  /**
   A run that fails, or waits inside a turn, has announced all the events of its recorded turns
   and then those of one turn that was cut short: nothing, the stream's events, or also the
   beginning of the tool events for the first so many of that turn's own running calls. Its new
   messages are those of the recorded turns, then what that turn injected, then the assistant
   message whose calls it was running.
   */
  lemma FailedTrace(config: LoopConfig, start: LoopState, script: seq<TurnScript>, n: nat)
    requires Fresh(start) && n <= |script|
    ensures var s := RunTo(config, start, script, n);
            s.phase.Halted? || s.phase.Stalled? ==>
              && Chronicle(config, start, s.turns)
              && exists cut ::
                   && CutShape(config, cut, NextHistory(start, s.turns), |s.turns|)
                   && Trace(s) == start.events + AllEvents(s.turns) + CutEvents(|s.turns|, cut)
                   && s.produced == start.produced + AllMessages(s.turns)
                     + CutMessages(Injection(start, s.turns, |s.turns|), cut)
  {
    RunLaws(config, start, script, n);
    var s := RunTo(config, start, script, n);
    NothingAdded(s.events);
    hide RunTo, Chronicle, AllEvents, AllMessages, CutShape, CutEvents, CutMessages, Injection, NextHistory;
    if s.phase.Halted? || s.phase.Stalled? {
      var cut :| CutAt(config, start, s, cut);
      assert CutShape(config, cut, NextHistory(start, s.turns), |s.turns|);
    }
  }

  // ----- started bodies

  lemma NoStartInStream(events: seq<AgentEvent>, call: ToolCall)
    requires StreamEventsOnly(events)
    ensures ToolExecutionStart(call) !in events
  {
    forall k | 0 <= k < |events| ensures events[k] != ToolExecutionStart(call) {
      assert IsStreamEvent(events[k]);
    }
  }

  lemma StartOnlyInTools(t: Turn, call: ToolCall)
    requires StreamEventsOnly(t.streamEvents) && ToolExecutionStart(call) in BodyEvents(t)
    ensures ToolExecutionStart(call) in ToolEvents(t.sequential, t.reports)
  {
    NoStartInStream(t.streamEvents, call);
    hide ToolEvents, StreamEventsOnly;
  }

  /**
   In every run, in every phase: a body is only started for a call that is cleared - registered,
   inside the allowlist that the gates composed for that turn's own last request, parsed, valid, and
   blocked by no before-hook, which is shown the live history.
   */
  lemma StartsWithinRequest(config: LoopConfig, start: LoopState, script: seq<TurnScript>, n: nat, k: nat,
                            call: ToolCall)
    requires Fresh(start) && n <= |script| && k < |RunTo(config, start, script, n).turns|
    requires ToolExecutionStart(call) in BodyEvents(RunTo(config, start, script, n).turns[k])
    ensures var turns := RunTo(config, start, script, n).turns;
            var t := turns[k];
            && Cleared(config, SeenOf(HistoryOf(start, turns, k), t.shrunk, t.assistant), call, t.allow)
            && Requested(config, Histories(start, turns, k), t.streamEvents, t.allow, k)
  {
    RunLaws(config, start, script, n);
    var s := RunTo(config, start, script, n);
    hide RunTo, BodyEvents, Requested, Cleared, Books, Interrupted, StreamEventsOnly, Reacted, StopsRun, AnswersEach,
         Continues,
         Final, ToolEvents;
    assert Proper(config, start, s.turns, k);
    StartOnlyInTools(s.turns[k], call);
  }

  /**
   Every body the cut turn started is that of a call cleared to run, inside the allowlist of that
   turn's last request.
   */
  ghost predicate CutStarts(config: LoopConfig, start: LoopState, turns: seq<Turn>, cut: Cut) {
    forall call :: ToolExecutionStart(call) in CutEvents(|turns|, cut) ==>
      && cut.InBatch?
      && Cleared(config, SeenOf(NextHistory(start, turns), cut.shrunk, cut.assistant), call, cut.allow)
      && Requested(config, [NextHistory(start, turns)] + cut.shrunk, cut.streamEvents, cut.allow, |turns|)
  }

  /** The same for the turn in which a failed or waiting run was cut short. */
  lemma CutStartsWithinRequest(config: LoopConfig, start: LoopState, script: seq<TurnScript>, n: nat)
    requires Fresh(start) && n <= |script|
    requires RunTo(config, start, script, n).phase.Halted? || RunTo(config, start, script, n).phase.Stalled?
    ensures var s := RunTo(config, start, script, n);
            exists cut :: CutAt(config, start, s, cut) && CutStarts(config, start, s.turns, cut)
  {
    RunLaws(config, start, script, n);
    var s := RunTo(config, start, script, n);
    hide RunTo, Chronicle, Continues, CutAt;
    var cut :| CutAt(config, start, s, cut);
    CutStartsPermitted(config, start, s, cut);
  }

  lemma CutStartsPermitted(config: LoopConfig, start: LoopState, s: LoopState, cut: Cut)
    requires CutAt(config, start, s, cut)
    ensures CutStarts(config, start, s.turns, cut)
  {
    hide Beginning, Requested, RequestsFaithful, Cleared, SeenOf, StreamEventsOnly, NextHistory, AllEvents, AllMessages;
    forall call | ToolExecutionStart(call) in CutEvents(|s.turns|, cut)
      ensures cut.InBatch?
              && Cleared(config, SeenOf(NextHistory(start, s.turns), cut.shrunk, cut.assistant), call, cut.allow)
    {
      if !cut.Unopened? {
        NoStartInStream(cut.streamEvents, call);
      }
    }
  }

  // ----- where a run stops with an error

  /** A run that has stopped looks at no further script. */
  lemma {:induction false} RunRests(config: LoopConfig, start: LoopState, script: seq<TurnScript>, n: nat, m: nat)
    requires n <= m <= |script| && !RunTo(config, start, script, n).phase.Going?
    ensures RunTo(config, start, script, m) == RunTo(config, start, script, n)
    decreases m
  {
    hide TakeTurn, Settle;
    if n < m {
      RunRests(config, start, script, n, m - 1);
    }
  }

  /**
   Cancelling between turns: a loop that would take another turn stops as aborted before it does
   anything else, and stays so.
   */
  lemma CancelledBetweenTurns(config: LoopConfig, start: LoopState, script: seq<TurnScript>, n: nat, m: nat)
    requires n < m <= |script| && RunTo(config, start, script, n).phase.Going? && script[n].cancelled
    ensures RunTo(config, start, script, m) == RunTo(config, start, script, n).(phase := Halted(AbortedRun))
  {
    hide *;
    CancelledTurn(config, RunTo(config, start, script, n), script[n]);
    NextState(config, start, script, n);
    RunRests(config, start, script, n + 1, m);
  }

  lemma NextState(config: LoopConfig, start: LoopState, script: seq<TurnScript>, n: nat)
    requires n < |script| && RunTo(config, start, script, n).phase.Going?
    ensures RunTo(config, start, script, n + 1)
            == Settle(TakeTurn(config, RunTo(config, start, script, n), script[n]), script[n])
  {
    hide TakeTurn, Settle;
  }

  lemma CancelledTurn(config: LoopConfig, s: LoopState, t: TurnScript)
    requires s.phase.Going? && t.cancelled
    ensures Settle(TakeTurn(config, s, t), t) == s.(phase := Halted(AbortedRun))
  {
  }

  /**
   The batch of a turn that begins in s: the model's calls, seen with the live history, under the
   turn's allowlist.
   */
  function TurnBatch(config: LoopConfig, s: LoopState, run: StreamRun, t: TurnScript): Batch
    requires run.outcome.Accepted?
  {
    Batch(config, SeenOf(s.messages + s.pending, run.shrunk, run.outcome.message), run.outcome.allow,
          ToolCalls(run.outcome.message), t.batch.bodies)
  }

  /**
   Why a turn that begins in s ends the run with this error: the run was cancelled before it, its
   stream was given up, or a body that was cleared to run ended its batch.
   */
  ghost predicate StoppedBecause(config: LoopConfig, s: LoopState, t: TurnScript, error: LoopError) {
    if t.cancelled then error == AbortedRun
    else
      var run := Recover(config, s.messages + s.pending, |s.turns|, t.attempts, s.hookCalls);
      || (run.outcome.Rejected? && error == run.outcome.error)
      || (run.outcome.Accepted? && ToolCalls(run.outcome.message) != []
          && exists k: nat, body :: BrokenBy(Runnable(TurnBatch(config, s, run, t)), t.batch.schedule, k, body, error))
  }

  lemma TurnStops(config: LoopConfig, s: LoopState, t: TurnScript)
    requires s.phase.Going? && TakeTurn(config, s, t).phase.Halted?
    ensures StoppedBecause(config, s, t, TakeTurn(config, s, t).phase.error)
  {
    if !t.cancelled {
      var run := Recover(config, s.messages + s.pending, |s.turns|, t.attempts, s.hookCalls);
      if run.outcome.Accepted? {
        var assistant := run.outcome.message;
        RecoveryLeaves(config, s.messages + s.pending, |s.turns|, t.attempts, s.hookCalls);
        var u := Streamed(config, s, t);
        var v := u.(messages := u.messages + [assistant], produced := u.produced + [assistant]);
        var b := BatchOf(config, v, assistant, run.outcome.allow, t);
        assert b == TurnBatch(config, s, run, t);
        hide Recover, RunBatch, ReactToPlainText, RunsSequentially, BrokenBy, Runnable;
        if ToolCalls(assistant) != [] {
          assert RunBatch(b, t.batch.schedule).verdict.Broke?;
          BrokenHasCause(b, t.batch.schedule);
        }
      }
    }
  }

  /** A run that failed did so in its last turn, and for one of these reasons. */
  lemma {:induction false} FailureHasReason(config: LoopConfig, start: LoopState, script: seq<TurnScript>, n: nat)
    requires Fresh(start) && n <= |script| && RunTo(config, start, script, n).phase.Halted?
    ensures exists m: nat :: m < n && RunTo(config, start, script, m).phase.Going?
              && RunTo(config, start, script, n) == TakeTurn(config, RunTo(config, start, script, m), script[m])
              && StoppedBecause(config, RunTo(config, start, script, m), script[m],
                                RunTo(config, start, script, n).phase.error)
    decreases n
  {
    if n > 0 {
      var s := RunTo(config, start, script, n - 1);
      if s.phase.Going? {
        var v := TakeTurn(config, s, script[n - 1]);
        SettleHalts(v, script[n - 1]);
        TurnStops(config, s, script[n - 1]);
      } else {
        FailureHasReason(config, start, script, n - 1);
      }
    }
  }

  lemma SettleHalts(v: LoopState, t: TurnScript)
    ensures Settle(v, t).phase.Halted? ==> Settle(v, t) == v
  {
  }

  // ----- what a turn does

  /** The turn that t records came of this streaming and, if it called tools, of this batch. */
  ghost predicate CameOf(t: Turn, injected: seq<AgentMessage>, run: StreamRun, batch: BatchRun, sources: TurnScript) {
    && run.outcome.Accepted?
    && t.injected == injected && t.assistant == run.outcome.message && t.allow == run.outcome.allow
    && t.shrunk == run.shrunk && t.streamEvents == run.events
    && (if ToolCalls(t.assistant) == [] then t.reports == []
        else t.reports == batch.reports && t.reaction.Nothing? && batch.verdict == Completed(t.terminated))
    && t.steering == (if t.terminated then None else Some(sources.steering))
    && (t.followUp.Some? ==> t.followUp.value == sources.followUp)
  }

  /** What an accepted message is followed by. */
  ghost predicate ActTaken(s: LoopState, t: TurnScript, run: StreamRun, batch: BatchRun, v: LoopState)
    requires run.outcome.Accepted?
  {
    && v.hookCalls == run.hookCalls
    && if ToolCalls(run.outcome.message) != [] && batch.verdict.Broke? then
         v.phase == Halted(batch.verdict.error) && v.turns == s.turns
       else if ToolCalls(run.outcome.message) != [] && batch.verdict.Waiting? then
         v.phase == Stalled && v.turns == s.turns
       else
         && |v.turns| == |s.turns| + 1 && v.turns[..|s.turns|] == s.turns
         && CameOf(v.turns[|s.turns|], s.pending, run, batch, t)
  }

  /**
   One turn of a run that is not cancelled: the provider is asked for the history with the pending
   messages behind it; waiting, it leaves the run waiting, and given up, it ends the run with its
   error; an accepted message's calls are run as one batch, which leaves the run waiting, ends it
   with its error, or gives the turn its reports and its verdict; and the turn is recorded as it
   came of them. The calls of the recovery hook are counted on.
   */
  ghost predicate TurnTaken(config: LoopConfig, s: LoopState, t: TurnScript, v: LoopState) {
    var run := Recover(config, s.messages + s.pending, |s.turns|, t.attempts, s.hookCalls);
    && v.hookCalls == run.hookCalls
    && match run.outcome
       case Awaiting => v.phase == Stalled && v.turns == s.turns
       case Rejected(error, _) => v.phase == Halted(error) && v.turns == s.turns
       case Accepted(_, _) => ActTaken(s, t, run, RunBatch(TurnBatch(config, s, run, t), t.batch.schedule), v)
  }

  lemma SettledStill(config: LoopConfig, s: LoopState, t: TurnScript, v: LoopState)
    requires TurnTaken(config, s, t, v)
    ensures TurnTaken(config, s, t, Settle(v, t))
  {
    hide Recover, RunBatch, TurnBatch;
    var w := Settle(v, t);
    if w.turns != v.turns {
      assert v.turns[..|v.turns| - 1] == w.turns[..|v.turns| - 1];
      assert |v.turns| == |s.turns| + 1 ==> w.turns[..|s.turns|] == s.turns;
    }
  }

  lemma ClosedLast(w: LoopState, turn: Turn, t: TurnScript)
    ensures var v := Close(w, turn, t);
            && |v.turns| == |w.turns| + 1 && v.turns[..|w.turns|] == w.turns && v.hookCalls == w.hookCalls
            && v.turns[|w.turns|] == turn.(steering := if turn.terminated then None else Some(t.steering))
  {
  }

  lemma PlainActTaken(config: LoopConfig, s: LoopState, t: TurnScript, run: StreamRun, u: LoopState, batch: BatchRun)
    requires run.outcome.Accepted? && ToolCalls(run.outcome.message) == []
    requires u.turns == s.turns && u.hookCalls == run.hookCalls
    ensures ActTaken(s, t, run, batch, Act(config, s.pending, run, u, run.outcome.message, run.outcome.allow, t))
  {
    var message, allow := run.outcome.message, run.outcome.allow;
    var w := u.(messages := u.messages + [message], produced := u.produced + [message]);
    var reaction := ReactToPlainText(config, message, allow, w.messages, |u.turns|, t.clock);
    var turn := Turn(s.pending, message, allow, run.shrunk, run.events, true, [], reaction, reaction.Deliver?, None,
                     None);
    assert Act(config, s.pending, run, u, message, allow, t) == Close(w, turn, t);
    ClosedLast(w, turn, t);
    hide ReactToPlainText, Close, Act;
  }

  lemma BatchActTaken(config: LoopConfig, s: LoopState, t: TurnScript, run: StreamRun, u: LoopState)
    requires run.outcome.Accepted? && ToolCalls(run.outcome.message) != []
    requires u.turns == s.turns && u.hookCalls == run.hookCalls
    requires u.messages == LeftBehind(s.messages + s.pending, run.shrunk)
    ensures ActTaken(s, t, run, RunBatch(TurnBatch(config, s, run, t), t.batch.schedule),
                     Act(config, s.pending, run, u, run.outcome.message, run.outcome.allow, t))
  {
    var message, allow := run.outcome.message, run.outcome.allow;
    var v := u.(messages := u.messages + [message], produced := u.produced + [message]);
    var b := BatchOf(config, v, message, allow, t);
    assert b == TurnBatch(config, s, run, t);
    var batch := RunBatch(b, t.batch.schedule);
    var w := v.(events := v.events + batch.events);
    hide RunBatch, TurnBatch, Close, RunsSequentially, Runnable, LeftBehind;
    if batch.verdict.Completed? {
      var turn := Turn(s.pending, message, allow, run.shrunk, run.events, RunsSequentially(config, Runnable(b).calls),
                       batch.reports, Nothing, batch.verdict.terminate, None, None);
      assert Act(config, s.pending, run, u, message, allow, t) == Close(w, turn, t);
      ClosedLast(w, turn, t);
      hide Act;
    }
  }

  lemma TakenIs(config: LoopConfig, s: LoopState, t: TurnScript)
    requires s.phase.Going? && !t.cancelled
    ensures TurnTaken(config, s, t, TakeTurn(config, s, t))
  {
    var run := Recover(config, s.messages + s.pending, |s.turns|, t.attempts, s.hookCalls);
    RecoveryLeaves(config, s.messages + s.pending, |s.turns|, t.attempts, s.hookCalls);
    var u := Streamed(config, s, t);
    hide Recover, RunBatch, Act, TurnBatch, LeftBehind, CameOf;
    if run.outcome.Accepted? {
      if ToolCalls(run.outcome.message) == [] {
        PlainActTaken(config, s, t, run, u, RunBatch(TurnBatch(config, s, run, t), t.batch.schedule));
      } else {
        BatchActTaken(config, s, t, run, u);
      }
    }
  }

  /** In every run, every turn that is taken without a cancellation is taken so. */
  lemma TurnTakenExactly(config: LoopConfig, start: LoopState, script: seq<TurnScript>, n: nat)
    requires n < |script| && RunTo(config, start, script, n).phase.Going? && !script[n].cancelled
    ensures TurnTaken(config, RunTo(config, start, script, n), script[n], RunTo(config, start, script, n + 1))
  {
    hide *;
    NextState(config, start, script, n);
    TakenIs(config, RunTo(config, start, script, n), script[n]);
    SettledStill(config, RunTo(config, start, script, n), script[n],
                 TakeTurn(config, RunTo(config, start, script, n), script[n]));
  }

  // ----- what a recorded turn stands for

  /** The results of a turn: the delivery, or one message for each report, in their order. */
  ghost predicate AreResults(t: Turn, results: seq<AgentMessage>) {
    if t.reaction.Deliver? then results == [t.reaction.result]
    else |results| == |t.reports| && forall k :: 0 <= k < |results| ==> ResultOf(t.reports[k], results[k])
  }

  /**
   A recorded turn adds to the transcript what was injected, the assistant message, the results and
   the nudge, and to the live history the same behind what recovery left of it; it reports the
   stream's events, the tools' events, its end with those results, and the polls behind it; and it
   hands on what these polls gave.
   */
  lemma RecordsExactly(t: Turn, history: seq<AgentMessage>) returns (results: seq<AgentMessage>)
    ensures AreResults(t, results)
    ensures var nudge := if t.reaction.Nudge? then [t.reaction.message] else [];
            && TurnMessages(t) == t.injected + [t.assistant] + results + nudge
            && Live(history, t)
               == (if t.shrunk == [] then history + t.injected else t.shrunk[|t.shrunk| - 1]) + [t.assistant]
                 + (results + nudge)
    ensures BodyEvents(t)
            == t.streamEvents + ToolEvents(t.sequential, t.reports) + [TurnEnd(t.assistant, results)]
               + ((if t.steering.Some? then [SteeringPolled(t.steering.value)] else [])
                  + (if t.followUp.Some? then [FollowUpPolled(t.followUp.value)] else []))
    ensures Handed(t) == (if t.steering.Some? then t.steering.value else [])
                         + (if t.followUp.Some? then t.followUp.value else [])
  {
    results := Results(t);
    if !t.reaction.Deliver? {
      forall k: nat | k < |results| ensures ResultOf(t.reports[k], results[k]) {
        MessageAt(t.reports, k);
      }
    }
    hide ToolEvents, Messages, ResultOf;
  }

  // ----- the first state

  /** A run starts out with nothing announced but the first poll, and with the prompts as its new messages. */
  lemma BeginIsFresh(messages: seq<AgentMessage>, produced: seq<AgentMessage>, steering: seq<AgentMessage>)
    ensures var s := Begin(messages, produced, steering);
            && Fresh(s) && s.messages == messages && s.produced == produced && s.pending == steering && s.hookCalls == 0
            && s.events == [SteeringPolled(steering)]
  {
  }
}

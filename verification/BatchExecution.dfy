/** One whole tool batch (src/exec.rs). */
module BatchExecution {
  import opened Wrappers
  import opened Transcript
  import opened Config
  import opened ToolCallCap
  import opened Dispatch
  import opened Sequential
  import opened Parallel
  import opened SiblingAbort

  /*
   A batch is the policy rewrite, the cap split, sequential or parallel dispatch of the calls that
   run, and the runtime's answers to the calls the cap deferred, which come after all the others.
   */

  /** What the environment does during one batch. */
  datatype BatchScript = BatchScript(bodies: nat -> BodyOutcome, schedule: seq<Move>)

  datatype Verdict = Completed(terminate: bool) | Broke(error: LoopError) | Waiting

  datatype BatchRun = BatchRun(events: seq<AgentEvent>, reports: seq<CallReport>, verdict: Verdict)

  predicate NeedsExclusive(tools: Registry, name: string) {
    name in tools && tools[name].requiresExclusiveSandbox
  }

  predicate RunsSequentially(config: LoopConfig, calls: seq<ToolCall>) {
    config.sequential || exists k :: 0 <= k < |calls| && NeedsExclusive(config.tools, calls[k].name)
  }

  function SequentialRun(b: Batch): BatchRun {
    var s := After(b, |b.calls|);
    BatchRun(s.events, s.reports,
             if s.phase.Dead? then Broke(s.phase.error) else Completed(UnanimousStop(b.config.tools, Votes(s.reports))))
  }

  function ParallelRun(b: Batch, schedule: seq<Move>): BatchRun {
    var s := Reached(b, schedule, |schedule|);
    if s.failure.Some? then BatchRun(StartEvents(b, |b.calls|), [], Broke(s.failure.value))
    else if s.unfinished != {} then BatchRun(StartEvents(b, |b.calls|), [], Waiting)
    else
      var reports := FinalReports(b, s);
      BatchRun(StartEvents(b, |b.calls|) + EndEvents(reports), reports,
               Completed(UnanimousStop(b.config.tools, Votes(reports))))
  }

  function Dispatched(b: Batch, schedule: seq<Move>): BatchRun {
    if RunsSequentially(b.config, b.calls) then SequentialRun(b) else ParallelRun(b, schedule)
  }

  /** The answer to a call the cap deferred. */
  function DeferredReport(b: Batch, call: ToolCall): CallReport {
    Report(call, false, Finalized(b.config, b.view, call, call.arguments, ErrorOutput(OverCap)))
  }

  function DeferredReports(b: Batch, calls: seq<ToolCall>): (r: seq<CallReport>)
    ensures |r| == |calls|
  {
    if calls == [] then []
    else DeferredReports(b, calls[..|calls| - 1]) + [DeferredReport(b, calls[|calls| - 1])]
  }

  /** The part of a batch that is run. */
  function Runnable(b: Batch): Batch {
    b.(calls := Executable(b.config.tools, NormalizeCalls(b.config, b.calls), b.config.maxToolCallsPerTurn))
  }

  function Postponed(b: Batch): seq<ToolCall> {
    Deferred(b.config.tools, NormalizeCalls(b.config, b.calls), b.config.maxToolCallsPerTurn)
  }

  function RunBatch(b: Batch, schedule: seq<Move>): BatchRun {
    if b.calls == [] then BatchRun([], [], Completed(false))
    else
      var run := Dispatched(Runnable(b), schedule);
      var late := Postponed(b);
      if !run.verdict.Completed? || late == [] then run
      else
        var answers := DeferredReports(b, late);
        BatchRun(run.events + EndEvents(answers), run.reports + answers, Completed(false))
  }

  // ----- laws

  function CallEventsOf(reports: seq<CallReport>): seq<AgentEvent> {
    if reports == [] then [] else CallEventsOf(reports[..|reports| - 1]) + CallEvents(reports[|reports| - 1])
  }

  function StartsOf(reports: seq<CallReport>): seq<AgentEvent> {
    if reports == [] then []
    else
      var last := reports[|reports| - 1];
      StartsOf(reports[..|reports| - 1]) + (if last.started then [ToolExecutionStart(last.call)] else [])
  }

  /**
   The tool events of a batch, given its reports: sequentially, each call's start (if its body
   ran) and end in turn; in parallel, all the starts and then all the ends.
   */
  function ToolEvents(sequential: bool, reports: seq<CallReport>): seq<AgentEvent> {
    if sequential then CallEventsOf(reports) else StartsOf(reports) + EndEvents(reports)
  }

  lemma CallEventsAppend(reports: seq<CallReport>, r: CallReport)
    ensures CallEventsOf(reports + [r]) == CallEventsOf(reports) + CallEvents(r)
  {
    assert (reports + [r])[..|reports|] == reports;
  }

  /** A body ended the run: the calls before it are answered, and its start is the last event. */
  predicate DiedStarting(b: Batch, s: Progress) {
    && |s.reports| < |b.calls| && Calls(s.reports) == b.calls[..|s.reports|]
    && s.events == CallEventsOf(s.reports) + [ToolExecutionStart(b.calls[|s.reports|])]
  }

  lemma {:induction false} SequentialEvents(b: Batch, n: nat)
    requires n <= |b.calls|
    ensures var s := After(b, n);
            if s.phase.Dead? then DiedStarting(b, s) else s.events == CallEventsOf(s.reports)
    decreases n
  {
    if n > 0 {
      hide After, CallEventsOf, CallEvents;
      SequentialEvents(b, n - 1);
      StepShape(b, n);
      if !After(b, n).phase.Dead? {
        AnsweredEvents(After(b, n - 1), After(b, n));
      } else if !After(b, n - 1).phase.Dead? {
        DiedEvents(b, n);
      }
    }
  }

  lemma AnsweredEvents(before: Progress, s: Progress)
    requires before.events == CallEventsOf(before.reports)
    requires exists r :: s.reports == before.reports + [r] && s.events == before.events + CallEvents(r)
    ensures s.events == CallEventsOf(s.reports)
  {
    hide CallEventsOf, CallEvents;
    var r :| s.reports == before.reports + [r] && s.events == before.events + CallEvents(r);
    CallEventsAppend(before.reports, r);
  }

  lemma DiedEvents(b: Batch, n: nat)
    requires 0 < n <= |b.calls| && !After(b, n - 1).phase.Dead? && After(b, n).phase.Dead?
    requires After(b, n - 1).events == CallEventsOf(After(b, n - 1).reports)
    ensures DiedStarting(b, After(b, n))
  {
    hide After, CallEventsOf, CallEvents, Calls;
    StepShape(b, n);
    AnswersInOrder(b, n - 1);
    assert |Calls(After(b, n - 1).reports)| == |After(b, n - 1).reports|;
  }

  lemma {:induction false} StartsMatch(b: Batch, reports: seq<CallReport>, n: nat)
    requires n == |reports| <= |b.calls|
    requires forall k :: 0 <= k < n ==> reports[k].call == b.calls[k] && reports[k].started == Launches(b, k)
    ensures StartsOf(reports) == StartEvents(b, n)
    decreases n
  {
    if n > 0 {
      StartsMatch(b, reports[..n - 1], n - 1);
    }
  }

  lemma ParallelEvents(b: Batch, schedule: seq<Move>)
    ensures var run := ParallelRun(b, schedule);
            run.verdict.Completed? ==> run.events == StartsOf(run.reports) + EndEvents(run.reports)
  {
    var run, s := ParallelRun(b, schedule), Reached(b, schedule, |schedule|);
    if run.verdict.Completed? {
      ReachedSound(b, schedule, |schedule|);
      OverPlaces(b, s);
      forall k | 0 <= k < |b.calls|
        ensures run.reports[k].call == b.calls[k] && run.reports[k].started == Launches(b, k)
      {
        FinalReportAt(b, s, k);
        EntryCall(b, s, Entry(k, run.reports[k]));
      }
      StartsMatch(b, run.reports, |b.calls|);
    }
  }

  /** A report whose outcome is still open, standing for a call that has been announced or refused. */
  function OpenReports(b: Batch, n: nat): (r: seq<CallReport>)
    requires n <= |b.calls|
    ensures |r| == n
    ensures forall k :: 0 <= k < n ==> r[k].call == b.calls[k] && r[k].started == Launches(b, k)
    decreases n
  {
    if n == 0 then []
    else
      var open := FinalizedOutcome(ErrorOutput(SiblingAborted), true, false);
      OpenReports(b, n - 1) + [CallReport(b.calls[n - 1], Launches(b, n - 1), open, false)]
  }

  lemma {:induction false} OpenCalls(b: Batch, n: nat)
    requires n <= |b.calls|
    ensures Calls(OpenReports(b, n)) == b.calls[..n]
    decreases n
  {
    if n > 0 {
      OpenCalls(b, n - 1);
      var before, last := OpenReports(b, n - 1), OpenReports(b, n)[n - 1];
      assert OpenReports(b, n) == before + [last];
      CallsAppend(before, [last]);
      CallsOfOne(last);
      hide *;
      TakeSnoc(b.calls, n);
    }
  }

  /** The events are the beginning of those of reports on the first so many of the calls, in order. */
  ghost predicate Beginning(calls: seq<ToolCall>, sequential: bool, events: seq<AgentEvent>) {
    exists reports :: Calls(reports) <= calls && events <= ToolEvents(sequential, reports)
  }

  lemma DiedBeginning(b: Batch, s: Progress)
    requires DiedStarting(b, s)
    ensures Beginning(b.calls, true, s.events)
  {
    var call := b.calls[|s.reports|];
    var open := CallReport(call, true, FinalizedOutcome(ErrorOutput(SiblingAborted), true, false), false);
    CallEventsAppend(s.reports, open);
    CallsAppend(s.reports, [open]);
    CallsOfOne(open);
    assert CallEvents(open) == [ToolExecutionStart(call)] + [EndEvent(open)];
    assert b.calls[..|s.reports| + 1] == b.calls[..|s.reports|] + [call];
    hide CallEventsOf, Calls, CallEvents;
    assert CallEventsOf(s.reports + [open]) == s.events + [EndEvent(open)];
    assert Calls(s.reports + [open]) <= b.calls && s.events <= ToolEvents(true, s.reports + [open]);
  }

  lemma DispatchedEvents(b: Batch, schedule: seq<Move>)
    ensures var run, mode := Dispatched(b, schedule), RunsSequentially(b.config, b.calls);
            && (run.verdict.Completed? ==> run.events == ToolEvents(mode, run.reports))
            && (!run.verdict.Completed? ==> Beginning(b.calls, mode, run.events))
  {
    var run := Dispatched(b, schedule);
    if RunsSequentially(b.config, b.calls) {
      SequentialEvents(b, |b.calls|);
      if run.verdict.Broke? {
        DiedBeginning(b, After(b, |b.calls|));
      }
      hide After, Reached, FinalReports, StartEvents, EndEvents, DiedStarting, Beginning, CallEventsOf, UnanimousStop,
           Votes;
    } else {
      ParallelEvents(b, schedule);
      if !run.verdict.Completed? {
        StartsMatch(b, OpenReports(b, |b.calls|), |b.calls|);
        OpenCalls(b, |b.calls|);
        assert b.calls[..|b.calls|] == b.calls;
        assert Calls(OpenReports(b, |b.calls|)) <= b.calls
          && run.events <= ToolEvents(false, OpenReports(b, |b.calls|));
      }
      hide Reached, FinalReports, StartEvents, EndEvents, StartsOf, OpenReports, UnanimousStop, Votes;
    }
  }

  predicate NoneStarted(reports: seq<CallReport>) {
    forall k :: 0 <= k < |reports| ==> !reports[k].started
  }

  /** Answers that start nothing add their ends and nothing else. */
  lemma {:induction false} UnstartedEvents(ran: seq<CallReport>, answers: seq<CallReport>)
    requires NoneStarted(answers)
    ensures CallEventsOf(ran + answers) == CallEventsOf(ran) + EndEvents(answers)
    ensures StartsOf(ran + answers) == StartsOf(ran)
    ensures EndEvents(ran + answers) == EndEvents(ran) + EndEvents(answers)
    decreases |answers|
  {
    if answers == [] {
      assert ran + answers == ran;
    } else {
      var before, last := answers[..|answers| - 1], answers[|answers| - 1];
      UnstartedEvents(ran, before);
      assert EndEvents(answers) == EndEvents(before) + [EndEvent(last)];
      assert ran + answers == (ran + before) + [last];
      ReportEventsAppend(ran + before, last);
      OneMore(CallEventsOf(ran), EndEvents(before), EndEvent(last));
      OneMore(EndEvents(ran), EndEvents(before), EndEvent(last));
    }
  }

  lemma DeferredSnoc(b: Batch, late: seq<ToolCall>, call: ToolCall)
    ensures DeferredReports(b, late + [call]) == DeferredReports(b, late) + [DeferredReport(b, call)]
  {
    assert (late + [call])[..|late|] == late;
  }

  lemma {:induction false} DeferredUnstarted(b: Batch, late: seq<ToolCall>)
    ensures NoneStarted(DeferredReports(b, late))
    decreases |late|
  {
    if late != [] {
      DeferredUnstarted(b, late[..|late| - 1]);
      var before, last := DeferredReports(b, late[..|late| - 1]), DeferredReport(b, late[|late| - 1]);
      assert DeferredReports(b, late) == before + [last];
    }
  }

  lemma ReportEventsAppend(reports: seq<CallReport>, r: CallReport)
    requires !r.started
    ensures CallEventsOf(reports + [r]) == CallEventsOf(reports) + [EndEvent(r)]
    ensures StartsOf(reports + [r]) == StartsOf(reports)
    ensures EndEvents(reports + [r]) == EndEvents(reports) + [EndEvent(r)]
  {
    assert (reports + [r])[..|reports|] == reports;
  }

  lemma {:induction false} DeferredCalls(b: Batch, late: seq<ToolCall>)
    ensures Calls(DeferredReports(b, late)) == late
    decreases |late|
  {
    if late != [] {
      DeferredCalls(b, late[..|late| - 1]);
      var before, last := DeferredReports(b, late[..|late| - 1]), DeferredReport(b, late[|late| - 1]);
      CallsAppend(before, [last]);
      CallsOfOne(last);
      hide *;
      SplitLast(late);
    }
  }

  /** Dispatch answers the running calls in source order, in either mode and under any schedule. */
  lemma DispatchedCalls(b: Batch, schedule: seq<Move>)
    ensures Dispatched(b, schedule).verdict.Completed? ==> Calls(Dispatched(b, schedule).reports) == b.calls
  {
    if RunsSequentially(b.config, b.calls) {
      AnswersInOrder(b, |b.calls|);
      assert b.calls[..|b.calls|] == b.calls;
    } else if ParallelRun(b, schedule).verdict.Completed? {
      SourceOrder(b, schedule);
    }
  }

  /** What a batch run is, in terms of the run of its undeferred calls and the answers to the others. */
  lemma RunBatchIs(b: Batch, schedule: seq<Move>)
    requires b.calls != []
    ensures var run, answers := Dispatched(Runnable(b), schedule), DeferredReports(b, Postponed(b));
            && (!run.verdict.Completed? ==> RunBatch(b, schedule) == run)
            && (run.verdict.Completed? ==>
                  && RunBatch(b, schedule).events == run.events + EndEvents(answers)
                  && RunBatch(b, schedule).reports == run.reports + answers
                  && RunBatch(b, schedule).verdict == (if answers == [] then run.verdict else Completed(false)))
  {
    var run := Dispatched(Runnable(b), schedule);
    assert run.events + [] == run.events && run.reports + [] == run.reports;
  }

  /**
   A completed batch answers every call exactly once: the running calls first, in source order,
   then the deferred ones, in source order.
   */
  lemma BatchAnswersAll(b: Batch, schedule: seq<Move>)
    requires RunBatch(b, schedule).verdict.Completed? && b.calls != []
    ensures Calls(RunBatch(b, schedule).reports) == Runnable(b).calls + Postponed(b)
    ensures forall i :: 0 <= i < |b.calls| ==> NormalizeCalls(b.config, b.calls)[i] == b.config.rewriteCall(b.calls, i)
    ensures forall id ::
            CountId(Calls(RunBatch(b, schedule).reports), id) == CountId(NormalizeCalls(b.config, b.calls), id)
  {
    var run := Dispatched(Runnable(b), schedule);
    RunBatchIs(b, schedule);
    DispatchedCalls(Runnable(b), schedule);
    DeferredCalls(b, Postponed(b));
    CallsAppend(run.reports, DeferredReports(b, Postponed(b)));
    SplitConserves(b.config.tools, NormalizeCalls(b.config, b.calls), b.config.maxToolCallsPerTurn);
    forall id ensures CountId(Runnable(b).calls + Postponed(b), id) == CountId(NormalizeCalls(b.config, b.calls), id) {
      CountIdAppend(Runnable(b).calls, Postponed(b), id);
    }
  }

  /**
   Results in source order, exactly: a completed batch answers its calls in the order in which the
   assistant made them if and only if the cap defers no call that stands before one it lets run.
   */
  lemma AnswersInSourceOrderExactly(b: Batch, schedule: seq<Move>)
    requires RunBatch(b, schedule).verdict.Completed?
    ensures Calls(RunBatch(b, schedule).reports) == NormalizeCalls(b.config, b.calls)
            <==> !Overtaken(b.config.tools, NormalizeCalls(b.config, b.calls), b.config.maxToolCallsPerTurn)
  {
    if b.calls == [] {
      assert NormalizeCalls(b.config, b.calls) == [];
      assert Calls([]) == [];
    } else {
      BatchAnswersAll(b, schedule);
      SourceOrderExactly(b.config.tools, NormalizeCalls(b.config, b.calls), b.config.maxToolCallsPerTurn);
      assert Runnable(b).calls
        == Executable(b.config.tools, NormalizeCalls(b.config, b.calls), b.config.maxToolCallsPerTurn);
      hide RunBatch, Overtaken, Runnable, Executable, Deferred;
    }
  }

  // ----- the reports and the verdict, declaratively

  /** A call the cap deferred is answered with an error that says so. */
  ghost predicate AnsweredOverCap(b: Batch, r: CallReport) {
    AnsweredFor(b, r.call, OverCap, r) && r.vote == r.outcome.terminate
  }

  lemma {:induction false} DeferredAnswered(b: Batch, late: seq<ToolCall>, k: nat)
    requires k < |late|
    ensures AnsweredOverCap(b, DeferredReports(b, late)[k])
    decreases |late|
  {
    var last := late[|late| - 1];
    if k < |late| - 1 {
      DeferredAnswered(b, late[..|late| - 1], k);
    } else {
      FinalizedByHooks(b.config, b.view, last, last.arguments, ErrorOutput(OverCap));
      hide Finalized, HookedTo;
    }
  }

  /** Report k of the calls that run, sequentially or in parallel. */
  ghost predicate RunReport(b: Batch, schedule: seq<Move>, reports: seq<CallReport>, k: nat)
    requires k < |reports| <= |b.calls|
  {
    if RunsSequentially(b.config, b.calls) then ReportedAt(b, reports, k)
    else if Cleared(b.config, b.view, b.calls[k], b.allow)
      then exists m: nat :: RecordedBy(b, schedule, m, Entry(k, reports[k]))
    else TurnedDown(b, b.calls[k], reports[k])
  }

  lemma DispatchedReports(b: Batch, schedule: seq<Move>)
    requires Dispatched(b, schedule).verdict.Completed?
    ensures var reports := Dispatched(b, schedule).reports;
            |reports| == |b.calls| && forall k: nat :: k < |reports| ==> RunReport(b, schedule, reports, k)
  {
    var run := Dispatched(b, schedule);
    hide Reached, After, FinalReports, Cleared, TurnedDown, RecordedBy, ReportedAt, UnanimousStop, Votes, StartEvents,
         EndEvents;
    if RunsSequentially(b.config, b.calls) {
      ReportsExactly(b, |b.calls|);
    } else {
      assert Over(Reached(b, schedule, |schedule|)) && run.reports == FinalReports(b, Reached(b, schedule, |schedule|));
      SourceOrder(b, schedule);
      assert |Calls(run.reports)| == |run.reports|;
      forall k: nat | k < |b.calls| ensures RunReport(b, schedule, run.reports, k) {
        FinalReportsExactly(b, schedule, k);
      }
    }
  }

  /**
   The reports of a completed batch, exactly: those of the calls that run, as their dispatch mode
   reports them, and behind them an answer to every call the cap deferred.
   */
  lemma BatchReportsExactly(b: Batch, schedule: seq<Move>)
    requires b.calls != [] && RunBatch(b, schedule).verdict.Completed?
    ensures var reports, n := RunBatch(b, schedule).reports, |Runnable(b).calls|;
            && |reports| == n + |Postponed(b)|
            && (forall k: nat :: k < n ==> RunReport(Runnable(b), schedule, reports[..n], k))
            && (forall k: nat :: n <= k < |reports| ==> AnsweredOverCap(b, reports[k]))
  {
    var run, late, n := Dispatched(Runnable(b), schedule), DeferredReports(b, Postponed(b)), |Runnable(b).calls|;
    RunBatchIs(b, schedule);
    DispatchedReports(Runnable(b), schedule);
    hide Dispatched, RunBatch, Runnable, Postponed, DeferredReports, RunReport, AnsweredOverCap;
    assert (run.reports + late)[..n] == run.reports;
    forall k: nat | n <= k < n + |late| ensures AnsweredOverCap(b, (run.reports + late)[k]) {
      DeferredAnswered(b, Postponed(b), k - n);
    }
  }

  /**
   What ended a broken batch: the body of a call that was cleared to run, its own or as the schedule
   let it return.
   */
  ghost predicate BrokenBy(b: Batch, schedule: seq<Move>, k: nat, body: BodyOutcome, error: LoopError) {
    && k < |b.calls| && Cleared(b.config, b.view, b.calls[k], b.allow) && EndsRun(body, b.calls[k], error)
    && (body == b.bodies(k) || (!RunsSequentially(b.config, b.calls) && Finish(k, body) in schedule))
  }

  /** A batch breaks only with the error of a body that was started. */
  lemma BrokenHasCause(b: Batch, schedule: seq<Move>)
    requires RunBatch(b, schedule).verdict.Broke?
    ensures exists k: nat, body :: BrokenBy(Runnable(b), schedule, k, body, RunBatch(b, schedule).verdict.error)
  {
    RunBatchIs(b, schedule);
    var r, error := Runnable(b), RunBatch(b, schedule).verdict.error;
    assert Dispatched(r, schedule).verdict == Broke(error);
    hide Runnable, RunBatch, Reached, After, FinalReports, Cleared, EndsRun, UnanimousStop, Votes, StartEvents,
         EndEvents;
    if RunsSequentially(r.config, r.calls) {
      DeathHasCause(r, |r.calls|);
      var k: nat :| k < |r.calls| && Cleared(r.config, r.view, r.calls[k], r.allow)
        && EndsRun(r.bodies(k), r.calls[k], error);
      assert BrokenBy(r, schedule, k, r.bodies(k), error);
    } else {
      RaceBrokenBy(r, schedule, error);
    }
  }

  lemma RaceBrokenBy(b: Batch, schedule: seq<Move>, error: LoopError)
    requires Reached(b, schedule, |schedule|).failure == Some(error) && !RunsSequentially(b.config, b.calls)
    ensures exists k: nat, body :: BrokenBy(b, schedule, k, body, error)
  {
    FailureHasCause(b, schedule, |schedule|);
    var m: nat :| m < |schedule| && Returns(b, schedule, m) && schedule[m].index < |b.calls|
      && EndsRun(Answer(b, schedule, m), b.calls[schedule[m].index], error);
    ReachedSound(b, schedule, m);
    var k, body := schedule[m].index, Answer(b, schedule, m);
    LaunchesExactly(b, k);
    assert schedule[m] == Finish(k, schedule[m].late) && schedule[m] in schedule;
    hide Reached, Launches, Cleared, EndsRun, FailedBefore;
    assert BrokenBy(b, schedule, k, body, error);
  }

  // ----- the events, declaratively

  function StartsIn(events: seq<AgentEvent>): seq<AgentEvent> {
    if events == [] then []
    else
      var last := events[|events| - 1];
      StartsIn(events[..|events| - 1]) + (if last.ToolExecutionStart? then [last] else [])
  }

  function EndsIn(events: seq<AgentEvent>): seq<AgentEvent> {
    if events == [] then []
    else
      var last := events[|events| - 1];
      EndsIn(events[..|events| - 1]) + (if last.ToolExecutionEnd? then [last] else [])
  }

  /** The end that announces a report: its call, and the output and error flag the after-hooks left. */
  function EndOf(r: CallReport): AgentEvent {
    ToolExecutionEnd(r.call.id, r.call.name, r.outcome.output, r.outcome.isError)
  }

  function EndsOf(reports: seq<CallReport>): seq<AgentEvent> {
    if reports == [] then [] else EndsOf(reports[..|reports| - 1]) + [EndOf(reports[|reports| - 1])]
  }

  lemma {:induction false} StartsInAppend(a: seq<AgentEvent>, b: seq<AgentEvent>)
    ensures StartsIn(a + b) == StartsIn(a) + StartsIn(b)
    ensures EndsIn(a + b) == EndsIn(a) + EndsIn(b)
    decreases |b|
  {
    if b == [] {
      NothingAdded(a);
      NothingAdded(StartsIn(a));
      NothingAdded(EndsIn(a));
    } else {
      assert (a + b)[..|a + b| - 1] == a + b[..|b| - 1];
      StartsInAppend(a, b[..|b| - 1]);
    }
  }

  lemma CallEventsSorted(r: CallReport)
    ensures StartsIn(CallEvents(r)) == (if r.started then [ToolExecutionStart(r.call)] else [])
    ensures EndsIn(CallEvents(r)) == [EndOf(r)]
  {
    var start := if r.started then [ToolExecutionStart(r.call)] else [];
    StartsInAppend(start, [EndEvent(r)]);
    assert StartsIn([]) == [] && EndsIn([]) == [];
  }

  lemma {:induction false} ReportEventsSorted(reports: seq<CallReport>)
    ensures StartsIn(CallEventsOf(reports)) == StartsOf(reports) && EndsIn(CallEventsOf(reports)) == EndsOf(reports)
    ensures StartsIn(StartsOf(reports)) == StartsOf(reports) && EndsIn(StartsOf(reports)) == []
    ensures StartsIn(EndEvents(reports)) == [] && EndsIn(EndEvents(reports)) == EndsOf(reports)
    decreases |reports|
  {
    if reports != [] {
      var front, last := reports[..|reports| - 1], reports[|reports| - 1];
      ReportEventsSorted(front);
      CallEventsSorted(last);
      StartsInAppend(CallEventsOf(front), CallEvents(last));
      var start := if last.started then [ToolExecutionStart(last.call)] else [];
      assert StartsIn(start) == start && EndsIn(start) == [];
      StartsInAppend(StartsOf(front), start);
      StartsInAppend(EndEvents(front), [EndEvent(last)]);
    }
  }

  /**
   A completed batch announces one start for every report whose body ran and one end for every
   report, each kind in the order of the reports, and result k carries what end k announced.
   */
  lemma EventsMatchReports(b: Batch, schedule: seq<Move>)
    requires RunBatch(b, schedule).verdict.Completed?
    ensures var run := RunBatch(b, schedule);
            && StartsIn(run.events) == StartsOf(run.reports)
            && EndsIn(run.events) == EndsOf(run.reports)
            && forall k :: 0 <= k < |run.reports| ==> ResultOf(run.reports[k], Messages(run.reports)[k])
  {
    var run, mode := RunBatch(b, schedule), RunsSequentially(b.config, Runnable(b).calls);
    BatchEvents(b, schedule);
    ReportEventsSorted(run.reports);
    StartsInAppend(StartsOf(run.reports), EndEvents(run.reports));
    NothingAdded(StartsOf(run.reports));
    NothingAdded(EndsOf(run.reports));
    hide RunBatch, Runnable, CallEventsOf, StartsOf, EndEvents, StartsIn, EndsIn, EndsOf, ResultOf;
    forall k: nat | k < |run.reports| ensures ResultOf(run.reports[k], Messages(run.reports)[k]) {
      MessageAt(run.reports, k);
    }
  }

  /** The result message of a report: its call's id and tool, and the content, flag and details the after-hooks left. */
  ghost predicate ResultOf(r: CallReport, message: AgentMessage) {
    && message.ToolResult? && message.toolCallId == r.call.id && message.toolName == r.call.name
    && message.result == r.outcome.output.content && message.isError == r.outcome.isError
    && message.details == r.outcome.output.details
  }

  lemma {:induction false} MessageAt(reports: seq<CallReport>, k: nat)
    requires k < |reports|
    ensures ResultOf(reports[k], Messages(reports)[k])
    decreases |reports|
  {
    if k < |reports| - 1 {
      MessageAt(reports[..|reports| - 1], k);
    }
  }

  /** Between any two starts there is an end. */
  ghost predicate OneAtATime(events: seq<AgentEvent>) {
    forall i, j :: 0 <= i < j < |events| && events[i].ToolExecutionStart? && events[j].ToolExecutionStart? ==>
      exists k :: i < k < j && events[k].ToolExecutionEnd?
  }

  /** No start comes behind an end. */
  ghost predicate StartsFirst(events: seq<AgentEvent>) {
    forall i, j :: 0 <= i < j < |events| && events[i].ToolExecutionEnd? ==> !events[j].ToolExecutionStart?
  }

  lemma OneMoreCall(events: seq<AgentEvent>, r: CallReport)
    requires OneAtATime(events) && (events != [] ==> events[|events| - 1].ToolExecutionEnd?)
    ensures OneAtATime(events + CallEvents(r))
    ensures events + CallEvents(r) != [] && (events + CallEvents(r))[|events + CallEvents(r)| - 1].ToolExecutionEnd?
  {
    var all := events + CallEvents(r);
    forall i, j | 0 <= i < j < |all| && all[i].ToolExecutionStart? && all[j].ToolExecutionStart?
      ensures exists k :: i < k < j && all[k].ToolExecutionEnd?
    {
      if j < |events| {
        var k :| i < k < j && events[k].ToolExecutionEnd?;
        assert all[k].ToolExecutionEnd?;
      } else {
        assert all[|events| - 1].ToolExecutionEnd?;
      }
    }
  }

  lemma {:induction false} SequentialAlternates(reports: seq<CallReport>)
    ensures var events := CallEventsOf(reports);
            OneAtATime(events) && (events != [] ==> events[|events| - 1].ToolExecutionEnd?)
    decreases |reports|
  {
    if reports != [] {
      SequentialAlternates(reports[..|reports| - 1]);
      hide OneAtATime, CallEvents;
      OneMoreCall(CallEventsOf(reports[..|reports| - 1]), reports[|reports| - 1]);
    }
  }

  lemma {:induction false} OnlyStarts(reports: seq<CallReport>)
    ensures forall i :: 0 <= i < |StartsOf(reports)| ==> StartsOf(reports)[i].ToolExecutionStart?
    ensures forall i :: 0 <= i < |EndEvents(reports)| ==> EndEvents(reports)[i].ToolExecutionEnd?
    decreases |reports|
  {
    if reports != [] {
      OnlyStarts(reports[..|reports| - 1]);
    }
  }

  lemma BeginningOfOrder(all: seq<AgentEvent>, events: seq<AgentEvent>)
    requires events <= all
    ensures OneAtATime(all) ==> OneAtATime(events)
    ensures StartsFirst(all) ==> StartsFirst(events)
  {
    if OneAtATime(all) {
      forall i, j | 0 <= i < j < |events| && events[i].ToolExecutionStart? && events[j].ToolExecutionStart?
        ensures exists k :: i < k < j && events[k].ToolExecutionEnd?
      {
        var k :| i < k < j && all[k].ToolExecutionEnd?;
        assert events[k] == all[k];
      }
    }
  }

  lemma ToolEventsOrder(sequential: bool, reports: seq<CallReport>)
    ensures if sequential then OneAtATime(ToolEvents(sequential, reports))
            else StartsFirst(ToolEvents(sequential, reports))
  {
    SequentialAlternates(reports);
    OnlyStarts(reports);
    hide CallEventsOf, StartsOf, EndEvents, OneAtATime;
  }

  /**
   A batch with a call that needs the sandbox for itself, or one of a loop configured so, never has
   two bodies started before an end, however the schedule goes and whether or not it completes; any
   other batch starts all its bodies before the first end.
   */
  lemma SandboxIsExclusive(b: Batch, schedule: seq<Move>)
    ensures var calls, tools := Runnable(b).calls, b.config.tools;
            if b.config.sequential
               || exists k ::
                    0 <= k < |calls| && calls[k].name in tools && tools[calls[k].name].requiresExclusiveSandbox
            then OneAtATime(RunBatch(b, schedule).events)
            else StartsFirst(RunBatch(b, schedule).events)
  {
    var calls, run := Runnable(b).calls, RunBatch(b, schedule);
    var mode := RunsSequentially(b.config, calls);
    assert Runnable(b).config == b.config;
    BatchEvents(b, schedule);
    hide RunBatch, Runnable, ToolEvents, OneAtATime, StartsFirst;
    ModeExactly(b.config, calls);
    if run.verdict.Completed? {
      ToolEventsOrder(mode, run.reports);
    } else {
      var reports :| Calls(reports) <= calls && run.events <= ToolEvents(mode, reports);
      ToolEventsOrder(mode, reports);
      BeginningOfOrder(ToolEvents(mode, reports), run.events);
    }
  }

  lemma ModeExactly(config: LoopConfig, calls: seq<ToolCall>)
    ensures RunsSequentially(config, calls) <==>
            (config.sequential
             || exists k ::
                  && 0 <= k < |calls| && calls[k].name in config.tools
                  && config.tools[calls[k].name].requiresExclusiveSandbox)
  {
    if exists k :: 0 <= k < |calls| && NeedsExclusive(config.tools, calls[k].name) {
      var k :| 0 <= k < |calls| && NeedsExclusive(config.tools, calls[k].name);
      assert config.tools[calls[k].name].requiresExclusiveSandbox;
    }
    if k :| 0 <= k < |calls| && calls[k].name in config.tools
            && config.tools[calls[k].name].requiresExclusiveSandbox
    {
      assert NeedsExclusive(config.tools, calls[k].name);
    }
  }

  /** A batch that defers a call never ends the run; some call of it does run, and every slot is used. */
  lemma DeferralKeepsGoing(b: Batch, schedule: seq<Move>)
    requires b.calls != [] && Postponed(b) != []
    ensures RunBatch(b, schedule).verdict != Completed(true)
    ensures Runnable(b).calls != []
    ensures b.config.maxToolCallsPerTurn.Some?
    ensures CountedIn(b.config.tools, Runnable(b).calls) == Slots(b.config.maxToolCallsPerTurn.value)
  {
    var norm, cap := NormalizeCalls(b.config, b.calls), b.config.maxToolCallsPerTurn;
    SplitConserves(b.config.tools, norm, cap);
    if cap.Some? && CountedIn(b.config.tools, norm) <= Slots(cap.value) {
      NothingDeferred(b.config.tools, norm, cap, |norm|);
    }
  }

  /** Answers that start nothing only add their ends. */
  lemma ToolEventsAppend(sequential: bool, b: Batch, ran: seq<CallReport>, late: seq<ToolCall>)
    ensures ToolEvents(sequential, ran + DeferredReports(b, late))
            == ToolEvents(sequential, ran) + EndEvents(DeferredReports(b, late))
  {
    DeferredUnstarted(b, late);
    UnstartedEvents(ran, DeferredReports(b, late));
    var answers := DeferredReports(b, late);
    hide CallEventsOf, StartsOf, EndEvents, DeferredReports;
    assert StartsOf(ran) + (EndEvents(ran) + EndEvents(answers))
      == (StartsOf(ran) + EndEvents(ran)) + EndEvents(answers);
  }

  /**
   The tool events of a completed batch are exactly those of its reports: one end per call,
   carrying the flag of the call's result message, and one start iff its body ran; any other
   batch has announced the beginning of such events, for the first so many of its running calls.
   */
  lemma BatchEvents(b: Batch, schedule: seq<Move>)
    ensures var run, mode := RunBatch(b, schedule), RunsSequentially(b.config, Runnable(b).calls);
            && (run.verdict.Completed? ==> run.events == ToolEvents(mode, run.reports))
            && (!run.verdict.Completed? ==> Beginning(Runnable(b).calls, mode, run.events))
  {
    var run, mode := RunBatch(b, schedule), RunsSequentially(b.config, Runnable(b).calls);
    if b.calls == [] {
      assert run.events == ToolEvents(mode, []) && run.reports == [];
    } else {
      DispatchedEvents(Runnable(b), schedule);
      RunBatchIs(b, schedule);
      ToolEventsAppend(mode, b, Dispatched(Runnable(b), schedule).reports, Postponed(b));
      assert Runnable(b).config == b.config;
      hide *;
    }
  }

  /**
   A completed batch ends the run exactly when it deferred no call and its reports agree to stop; a
   batch without calls does nothing and ends nothing.
   */
  lemma BatchVote(b: Batch, schedule: seq<Move>)
    ensures b.calls == [] ==> RunBatch(b, schedule) == BatchRun([], [], Completed(false))
    ensures RunBatch(b, schedule).verdict.Completed? ==>
              (RunBatch(b, schedule).verdict.terminate <==>
                 Postponed(b) == [] && AgreeToStop(b.config.tools, RunBatch(b, schedule).reports))
  {
    if b.calls != [] && RunBatch(b, schedule).verdict.Completed? {
      NonEmptyBatchVote(b, schedule);
    }
    VoteExactly(b.config.tools, RunBatch(b, schedule).reports);
  }

  lemma NonEmptyBatchVote(b: Batch, schedule: seq<Move>)
    requires b.calls != [] && RunBatch(b, schedule).verdict.Completed?
    ensures RunBatch(b, schedule).verdict.terminate <==>
            Postponed(b) == [] && UnanimousStop(b.config.tools, Votes(RunBatch(b, schedule).reports))
  {
    RunBatchIs(b, schedule);
    DispatchedVote(Runnable(b), schedule);
    assert |DeferredReports(b, Postponed(b))| == |Postponed(b)|;
    NothingAdded(Dispatched(Runnable(b), schedule).reports);
    assert Runnable(b).config == b.config;
    hide RunBatch, Runnable, Postponed, Dispatched, DeferredReports, Votes, UnanimousStop;
  }

  lemma DispatchedVote(b: Batch, schedule: seq<Move>)
    ensures var run := Dispatched(b, schedule);
            run.verdict.Completed? ==> run.verdict.terminate == UnanimousStop(b.config.tools, Votes(run.reports))
  {
    hide After, Reached, FinalReports, Votes, UnanimousStop, RunsSequentially, StartEvents, EndEvents;
  }

  /**
   Schedule independence, for what the batch hands back: in a calm batch without user
   cancellation, parallel dispatch under any schedule gives the reports and the verdict of
   sequential dispatch once every body has finished, and never an error.
   */
  lemma ModesAgree(b: Batch, schedule: seq<Move>)
    requires Calm(b) && NoUserCancel(schedule)
    ensures var run, other := ParallelRun(b, schedule), SequentialRun(b);
            && !run.verdict.Broke? && other.verdict.Completed?
            && (run.verdict.Completed? ==> run.reports == other.reports && run.verdict == other.verdict)
  {
    ScheduleIndependence(b, schedule);
    hide After, Reached, FinalReports, Votes, UnanimousStop, StartEvents, EndEvents, Calm;
  }

  /** A body is only started for a call that is cleared: registered, allowed, parsed, valid and blocked by no hook. */
  lemma StartedAreCleared(b: Batch, schedule: seq<Move>, call: ToolCall)
    requires ToolExecutionStart(call) in RunBatch(b, schedule).events
    ensures Cleared(b.config, b.view, call, b.allow)
  {
    RunBatchIs(b, schedule);
    NoStartInEnds(DeferredReports(b, Postponed(b)), call);
    DispatchedStarts(Runnable(b), schedule, call);
    assert Runnable(b).config == b.config && Runnable(b).view == b.view && Runnable(b).allow == b.allow;
    hide *;
  }

  lemma DispatchedStarts(b: Batch, schedule: seq<Move>, call: ToolCall)
    requires ToolExecutionStart(call) in Dispatched(b, schedule).events
    ensures Cleared(b.config, b.view, call, b.allow)
  {
    if RunsSequentially(b.config, b.calls) {
      SequentialStarts(b, |b.calls|, call);
    } else {
      ParallelStarts(b, |b.calls|, call);
      NoStartInEnds(FinalReports(b, Reached(b, schedule, |schedule|)), call);
    }
  }

  lemma {:induction false} NoStartInEnds(reports: seq<CallReport>, call: ToolCall)
    ensures ToolExecutionStart(call) !in EndEvents(reports)
    decreases |reports|
  {
    if reports != [] {
      NoStartInEnds(reports[..|reports| - 1], call);
    }
  }

  lemma {:induction false} ParallelStarts(b: Batch, n: nat, call: ToolCall)
    requires n <= |b.calls|
    ensures ToolExecutionStart(call) in StartEvents(b, n) ==>
              Cleared(b.config, b.view, call, b.allow)
    decreases n
  {
    if n > 0 {
      ParallelStarts(b, n - 1, call);
      PreparedExactly(b.config, b.view, b.calls[n - 1], b.allow);
      hide Cleared, PrepareCall, Finalized;
    }
  }

  lemma {:induction false} SequentialStarts(b: Batch, n: nat, call: ToolCall)
    requires n <= |b.calls|
    ensures ToolExecutionStart(call) in After(b, n).events ==>
              Cleared(b.config, b.view, call, b.allow)
    decreases n
  {
    if n > 0 {
      SequentialStarts(b, n - 1, call);
      PreparedExactly(b.config, b.view, b.calls[n - 1], b.allow);
      hide Cleared, PrepareCall, Finalized;
    }
  }

  // ----- the program

  method SynthesizeUnexecutedToolResults(b: Batch, calls: seq<ToolCall>, sink: EventSink)
    returns (messages: seq<AgentMessage>)
    modifies sink
    ensures messages == Messages(DeferredReports(b, calls))
    ensures sink.log == old(sink.log) + EndEvents(DeferredReports(b, calls))
  {
    messages := [];
    NothingAdded(sink.log);
    assert DeferredReports(b, calls[..0]) == [];
    assert Messages([]) == [] && EndEvents([]) == [];
    hide Messages, EndEvents, DeferredReports, Finalized;
    for i := 0 to |calls|
      invariant messages == Messages(DeferredReports(b, calls[..i]))
      invariant sink.log == old(sink.log) + EndEvents(DeferredReports(b, calls[..i]))
    {
      var call := calls[i];
      var outcome := Finalize(b.config, b.view, call, call.arguments, ErrorOutput(OverCap), true);
      var report := Report(call, false, outcome);
      assert report == DeferredReport(b, call);
      hide *;
      TakeSnoc(calls, i + 1);
      DeferredSnoc(b, calls[..i], call);
      EndAdded(DeferredReports(b, calls[..i]), report);
      sink.Emit(EndEvent(report));
      messages := messages + [ToMessage(report)];
    }
    assert calls[..|calls|] == calls;
  }

  method NeedsSequentialMode(config: LoopConfig, calls: seq<ToolCall>) returns (sequential: bool)
    ensures sequential == RunsSequentially(config, calls)
  {
    sequential := config.sequential;
    for k := 0 to |calls|
      invariant sequential
                == (config.sequential || exists j :: 0 <= j < k && NeedsExclusive(config.tools, calls[j].name))
    {
      if NeedsExclusive(config.tools, calls[k].name) {
        sequential := true;
      }
    }
  }

  /** How a batch run is handed back to the loop. */
  function Result(run: BatchRun): BatchResult {
    match run.verdict
    case Completed(terminate) => Executed(Messages(run.reports), terminate)
    case Broke(error) => Failed(error)
    case Waiting => Pending
  }

  method DispatchBatch(b: Batch, schedule: seq<Move>, sink: EventSink) returns (batch: BatchResult)
    modifies sink
    ensures sink.log == old(sink.log) + Dispatched(b, schedule).events
    ensures batch == Result(Dispatched(b, schedule))
  {
    var sequential := NeedsSequentialMode(b.config, b.calls);
    hide RunsSequentially, After, Reached, FinalReports, StartEvents, EndEvents, UnanimousStop, Messages, Votes;
    if sequential {
      batch := ExecuteSequential(b, sink);
    } else {
      batch := ExecuteParallel(b, schedule, sink);
      assert old(sink.log) + StartEvents(b, |b.calls|) + [] == old(sink.log) + StartEvents(b, |b.calls|);
    }
  }

  method ExecuteToolBatch(b: Batch, schedule: seq<Move>, sink: EventSink) returns (batch: BatchResult)
    modifies sink
    ensures sink.log == old(sink.log) + RunBatch(b, schedule).events
    ensures batch == Result(RunBatch(b, schedule))
  {
    if b.calls == [] {
      NothingAdded(sink.log);
      return Executed([], false);
    }
    var normalized := NormalizeCalls(b.config, b.calls);
    var executable, unexecuted := SplitToolCallsForExecution(b.config.tools, normalized, b.config.maxToolCallsPerTurn);
    var running := b.(calls := executable);
    assert running == Runnable(b) && unexecuted == Postponed(b);
    hide *;
    ResultAppended(b, schedule);
    Associate(sink.log, Dispatched(running, schedule).events, EndEvents(DeferredReports(b, unexecuted)));
    batch := DispatchBatch(running, schedule, sink);
    if batch.Executed? && unexecuted != [] {
      var answers := SynthesizeUnexecutedToolResults(b, unexecuted, sink);
      batch := Executed(batch.messages + answers, false);
    }
  }

  /** What the running calls and the deferred ones hand back, put together, is what the batch hands back. */
  lemma ResultAppended(b: Batch, schedule: seq<Move>)
    requires b.calls != []
    ensures var run, late := Dispatched(Runnable(b), schedule), Postponed(b);
            if Result(run).Executed? && late != [] then
              && Result(RunBatch(b, schedule))
                == Executed(Result(run).messages + Messages(DeferredReports(b, late)), false)
              && RunBatch(b, schedule).events == run.events + EndEvents(DeferredReports(b, late))
            else Result(RunBatch(b, schedule)) == Result(run) && RunBatch(b, schedule).events == run.events
  {
    MessagesAppend(Dispatched(Runnable(b), schedule).reports, DeferredReports(b, Postponed(b)));
    hide Dispatched, Runnable, Postponed, DeferredReports, EndEvents, Messages;
  }

  lemma {:induction false} MessagesAppend(a: seq<CallReport>, b: seq<CallReport>)
    ensures Messages(a + b) == Messages(a) + Messages(b)
    decreases |b|
  {
    if b == [] {
      assert a + b == a;
    } else {
      assert (a + b)[..|a + b| - 1] == a + b[..|b| - 1];
      MessagesAppend(a, b[..|b| - 1]);
    }
  }
}

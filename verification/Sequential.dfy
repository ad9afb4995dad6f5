/** Sequential dispatch: one call after another, with the dependency abort (src/exec.rs). */
module Sequential {
  import opened Wrappers
  import opened Transcript
  import opened Config
  import opened Dispatch

  /** Running; answering the rest without starting it, because `failedTool` failed; or ended by a body. */
  datatype Phase = Running | Skipping(failedTool: string) | Dead(error: LoopError)

  datatype Progress = Progress(reports: seq<CallReport>, events: seq<AgentEvent>, phase: Phase)

  /** The answer to a call that is not started because an earlier sibling failed; it always votes to go on. */
  function SkippedReport(b: Batch, k: nat, failedTool: string): CallReport
    requires k < |b.calls|
  {
    var call := b.calls[k];
    CallReport(call, false,
               Finalized(b.config, b.view, call, call.arguments, ErrorOutput(SiblingFailed(failedTool))), false)
  }

  function Step(b: Batch, s: Progress, k: nat): Progress
    requires k < |b.calls|
  {
    match s.phase
    case Running =>
      (match RunOneCall(b, k)
       case Died(error) => Progress(s.reports, s.events + [ToolExecutionStart(b.calls[k])], Dead(error))
       case Finished(report) =>
         Progress(s.reports + [report], s.events + CallEvents(report),
                  if Boundary(b, report) then Skipping(b.calls[k].name) else Running))
    case Skipping(failedTool) =>
      var report := SkippedReport(b, k, failedTool);
      Progress(s.reports + [report], s.events + [EndEvent(report)], s.phase)
    case Dead(_) => s
  }

  /** A failure that later work of the batch depends on. */
  predicate Boundary(b: Batch, report: CallReport) {
    report.outcome.isError && AbortsSiblings(b.config.tools, report.call.name)
  }

  /** The batch after its first n calls. */
  function After(b: Batch, n: nat): Progress
    requires n <= |b.calls|
    decreases n
  {
    if n == 0 then Progress([], [], Running) else Step(b, After(b, n - 1), n - 1)
  }

  // ----- laws

  /** One step answers one call, announcing exactly that call's events, or dies having announced its start. */
  lemma StepShape(b: Batch, n: nat)
    requires 0 < n <= |b.calls|
    ensures var before, s := After(b, n - 1), After(b, n);
            && (before.phase.Dead? ==> s == before)
            && (!before.phase.Dead? && s.phase.Dead? ==>
                  s.reports == before.reports && s.events == before.events + [ToolExecutionStart(b.calls[n - 1])])
            && (!s.phase.Dead? ==>
                  exists r: CallReport :: r.call == b.calls[n - 1] && s.reports == before.reports + [r]
                    && s.events == before.events + CallEvents(r))
  {
    var before, s := After(b, n - 1), After(b, n);
    if !s.phase.Dead? {
      var r := s.reports[|s.reports| - 1];
      assert r.call == b.calls[n - 1] && s.reports == before.reports + [r] && s.events == before.events + CallEvents(r);
    }
  }

  lemma OneMoreAnswered(answered: seq<CallReport>, r: CallReport, calls: seq<ToolCall>, n: nat)
    requires 0 < n <= |calls| && Calls(answered) == calls[..n - 1] && r.call == calls[n - 1]
    ensures Calls(answered + [r]) == calls[..n]
  {
    CallsAppend(answered, [r]);
    CallsOfOne(r);
    hide *;
    assert calls[..n] == calls[..n - 1] + [calls[n - 1]];
  }

  /** Unless a body ends the run, every call is answered once, in source order. */
  lemma {:induction false} AnswersInOrder(b: Batch, n: nat)
    requires n <= |b.calls|
    ensures !After(b, n).phase.Dead? ==> Calls(After(b, n).reports) == b.calls[..n]
    decreases n
  {
    if n > 0 {
      AnswersInOrder(b, n - 1);
      StepShape(b, n);
      var before, s := After(b, n - 1), After(b, n);
      hide After;
      if !s.phase.Dead? {
        var r: CallReport :| r.call == b.calls[n - 1] && s.reports == before.reports + [r];
        OneMoreAnswered(before.reports, r, b.calls, n);
      }
    }
  }

  /** The first n calls all ran, and none of them was a dependency failure. */
  ghost predicate AllRan(b: Batch, reports: seq<CallReport>, n: nat) {
    && n <= |reports| && n <= |b.calls|
    && forall k :: 0 <= k < n ==> RunOneCall(b, k) == Finished(reports[k]) && !Boundary(b, reports[k])
  }

  /** Call f is the first dependency failure; the calls after it, up to n, got the skip answer. */
  ghost predicate AbortedAt(b: Batch, reports: seq<CallReport>, f: nat, n: nat) {
    && f < n <= |b.calls| && n <= |reports|
    && AllRan(b, reports, f)
    && RunOneCall(b, f) == Finished(reports[f]) && Boundary(b, reports[f])
    && forall k :: f < k < n ==> reports[k] == SkippedReport(b, k, b.calls[f].name)
  }

  lemma StepFromRunning(b: Batch, s: Progress, n: nat)
    requires n < |b.calls| && s.phase.Running? && |s.reports| == n && AllRan(b, s.reports, n)
    ensures var t := Step(b, s, n);
            && (!t.phase.Dead? ==> |t.reports| == n + 1)
            && (t.phase.Running? ==> AllRan(b, t.reports, n + 1))
            && (t.phase.Skipping? ==> t.phase.failedTool == b.calls[n].name && AbortedAt(b, t.reports, n, n + 1))
  {
    assert RunOneCall(b, n).Finished? ==> RunOneCall(b, n).report.call == b.calls[n];
    hide RunOneCall, Finalized, AbortsSiblings, SkippedReport;
  }

  lemma StepFromSkipping(b: Batch, s: Progress, f: nat, n: nat)
    requires n < |b.calls| && s.phase.Skipping? && |s.reports| == n
    requires AbortedAt(b, s.reports, f, n) && s.phase.failedTool == b.calls[f].name
    ensures var t := Step(b, s, n); |t.reports| == n + 1 && t.phase == s.phase && AbortedAt(b, t.reports, f, n + 1)
  {
    hide RunOneCall, Boundary, SkippedReport;
  }

  /** What is known of the batch after n calls. */
  ghost predicate Explained(b: Batch, s: Progress, n: nat) {
    && (!s.phase.Dead? ==> |s.reports| == n)
    && (s.phase.Running? ==> AllRan(b, s.reports, n))
    && (s.phase.Skipping? ==> exists f: nat :: AbortedAt(b, s.reports, f, n) && s.phase.failedTool == b.calls[f].name)
  }

  lemma StepExplained(b: Batch, s: Progress, n: nat)
    requires n < |b.calls| && Explained(b, s, n)
    ensures Explained(b, Step(b, s, n), n + 1)
  {
    if s.phase.Running? {
      StepFromRunning(b, s, n);
    } else if s.phase.Skipping? {
      var f: nat :| AbortedAt(b, s.reports, f, n) && s.phase.failedTool == b.calls[f].name;
      StepFromSkipping(b, s, f, n);
    } else {
      assert Step(b, s, n) == s;
    }
    hide Step, AbortedAt, AllRan;
  }

  /**
   The dependency abort, exactly: the batch is running iff every call so far ran and none was a
   dependency failure; it is skipping iff there was one, and then no call after it is started:
   each gets the sibling-failure answer and a vote to go on.
   */
  lemma {:induction false} SkippingExact(b: Batch, n: nat)
    requires n <= |b.calls|
    ensures Explained(b, After(b, n), n)
    decreases n
  {
    if n > 0 {
      SkippingExact(b, n - 1);
      StepExplained(b, After(b, n - 1), n - 1);
      hide Explained, Step;
    }
  }

  // ----- the reports, declaratively

  /** The call failed, and later work of the batch depends on it. */
  ghost predicate DependencyFailed(b: Batch, r: CallReport) {
    r.outcome.isError && r.call.name in b.config.tools && b.config.tools[r.call.name].abortsSiblingsOnError
  }

  /** Call f is the first of the first n to fail so. */
  ghost predicate FirstFailure(b: Batch, reports: seq<CallReport>, n: nat, f: nat)
    requires n <= |reports|
  {
    f < n && DependencyFailed(b, reports[f]) && forall k :: 0 <= k < f ==> !DependencyFailed(b, reports[k])
  }

  /** Call k's report when no earlier call failed so: its body's output, or why it may not run. */
  ghost predicate OnItsOwn(b: Batch, k: nat, r: CallReport)
    requires k < |b.calls|
  {
    TurnedDown(b, b.calls[k], r) || exists output :: Gives(b.bodies(k), output) && Ran(b, b.calls[k], output, r)
  }

  /** Call k's report behind a dependency failure: it is not started, and it votes to go on. */
  ghost predicate SkippedFor(b: Batch, k: nat, f: nat, r: CallReport)
    requires k < |b.calls| && f < |b.calls|
  {
    AnsweredFor(b, b.calls[k], SiblingFailed(b.calls[f].name), r) && !r.vote
  }

  ghost predicate ReportedAt(b: Batch, reports: seq<CallReport>, k: nat)
    requires k < |reports| <= |b.calls|
  {
    && ((forall f: nat :: !FirstFailure(b, reports, k, f)) ==> OnItsOwn(b, k, reports[k]))
    && (forall f: nat :: FirstFailure(b, reports, k, f) ==> SkippedFor(b, k, f, reports[k]))
  }

  lemma FailureIsBoundary(b: Batch, r: CallReport)
    ensures DependencyFailed(b, r) <==> Boundary(b, r)
  {
  }

  lemma SkippedIsFor(b: Batch, k: nat, f: nat)
    requires k < |b.calls| && f < |b.calls|
    ensures SkippedFor(b, k, f, SkippedReport(b, k, b.calls[f].name))
  {
    var call := b.calls[k];
    FinalizedByHooks(b.config, b.view, call, call.arguments, ErrorOutput(SiblingFailed(b.calls[f].name)));
    hide Finalized, HookedTo;
  }

  lemma RanOnItsOwn(b: Batch, k: nat, r: CallReport)
    requires k < |b.calls| && RunOneCall(b, k) == Finished(r)
    ensures OnItsOwn(b, k, r)
  {
    OneCallExactly(b, k);
    hide RunOneCall, TurnedDown, Gives, Ran;
  }

  lemma RunningReport(b: Batch, reports: seq<CallReport>, n: nat, k: nat)
    requires AllRan(b, reports, n) && k < n && |reports| <= |b.calls|
    ensures ReportedAt(b, reports, k)
  {
    RanOnItsOwn(b, k, reports[k]);
    hide OnItsOwn, RunOneCall, Boundary;
    forall f: nat ensures !FirstFailure(b, reports, k, f) {
      if f < k {
        FailureIsBoundary(b, reports[f]);
      }
    }
  }

  lemma AbortedReport(b: Batch, reports: seq<CallReport>, f: nat, n: nat, k: nat)
    requires AbortedAt(b, reports, f, n) && k < n && |reports| <= |b.calls|
    ensures ReportedAt(b, reports, k)
  {
    if k < f {
      RunningReport(b, reports, f, k);
    } else if k == f {
      RanOnItsOwn(b, f, reports[f]);
      hide OnItsOwn, RunOneCall, Boundary;
      forall g: nat ensures !FirstFailure(b, reports, f, g) {
        if g < f {
          FailureIsBoundary(b, reports[g]);
        }
      }
    } else {
      hide OnItsOwn, RunOneCall, Boundary, SkippedReport, SkippedFor;
      SkippedIsFor(b, k, f);
      FailureIsBoundary(b, reports[f]);
      forall g: nat | g < f ensures !DependencyFailed(b, reports[g]) {
        FailureIsBoundary(b, reports[g]);
      }
      hide DependencyFailed;
      assert FirstFailure(b, reports, k, f);
      forall g: nat | FirstFailure(b, reports, k, g) ensures g == f {
        assert g < f || f < g || g == f;
      }
    }
  }

  /**
   Sequential dispatch, exactly: a call is reported on its own, with what its body gave or why it
   may not run, up to the first one whose failure later work depends on; every call behind that one
   gets the sibling answer, is not started and votes to go on.
   */
  lemma ReportsExactly(b: Batch, n: nat)
    requires n <= |b.calls| && !After(b, n).phase.Dead?
    ensures var reports := After(b, n).reports;
            |reports| == n && forall k: nat :: k < n ==> ReportedAt(b, reports, k)
  {
    SkippingExact(b, n);
    var s := After(b, n);
    hide After, AllRan, AbortedAt, ReportedAt;
    forall k: nat | k < n ensures ReportedAt(b, s.reports, k) {
      if s.phase.Running? {
        RunningReport(b, s.reports, n, k);
      } else {
        var f: nat :| AbortedAt(b, s.reports, f, n) && s.phase.failedTool == b.calls[f].name;
        AbortedReport(b, s.reports, f, n, k);
      }
    }
  }

  /** A body that ended the run was cleared to run, and the error is its own. */
  lemma {:induction false} DeathHasCause(b: Batch, n: nat)
    requires n <= |b.calls| && After(b, n).phase.Dead?
    ensures exists k: nat :: k < n && Cleared(b.config, b.view, b.calls[k], b.allow)
              && EndsRun(b.bodies(k), b.calls[k], After(b, n).phase.error)
    decreases n
  {
    hide Cleared, EndsRun, RunOneCall;
    if n > 0 {
      var before := After(b, n - 1);
      if before.phase.Dead? {
        DeathHasCause(b, n - 1);
      } else {
        OneCallExactly(b, n - 1);
        assert RunOneCall(b, n - 1) == Died(After(b, n).phase.error);
      }
    }
  }

  /** A skipped call whose vote counts keeps the run going. */
  lemma SkippedCountedCallKeepsGoing(b: Batch, k: nat)
    requires k < |b.calls| && After(b, k).phase.Skipping?
    requires CountsTowardTerminationVote(b.config.tools, b.calls[k].name)
    ensures var s := After(b, |b.calls|);
            s.phase.Skipping? && !UnanimousStop(b.config.tools, Votes(s.reports))
  {
    SkippingPersists(b, k, |b.calls|);
    OneNoKeepsGoing(b.config.tools, After(b, |b.calls|).reports, k);
  }

  lemma StepSkipping(b: Batch, s: Progress, n: nat)
    requires n < |b.calls| && s.phase.Skipping?
    ensures var t := Step(b, s, n);
            t.phase == s.phase && t.reports == s.reports + [SkippedReport(b, n, s.phase.failedTool)]
  {
    hide RunOneCall, SkippedReport;
  }

  lemma SkippingReports(b: Batch, n: nat)
    requires n <= |b.calls|
    ensures !After(b, n).phase.Dead? ==> |After(b, n).reports| == n
  {
    hide After, AllRan, AbortedAt;
    SkippingExact(b, n);
  }

  lemma {:induction false} SkippingPersists(b: Batch, k: nat, n: nat)
    requires k < n <= |b.calls| && After(b, k).phase.Skipping?
    ensures var s := After(b, n);
            s.phase.Skipping? && |s.reports| == n && s.reports[k].call == b.calls[k] && !s.reports[k].vote
              && !s.reports[k].started
    decreases n
  {
    var before := After(b, n - 1);
    assert After(b, n) == Step(b, before, n - 1);
    SkippingReports(b, n - 1);
    hide After, Step;
    if k < n - 1 {
      SkippingPersists(b, k, n - 1);
    }
    StepSkipping(b, before, n - 1);
  }

  lemma {:induction false} DeadStays(b: Batch, k: nat, n: nat)
    requires k <= n <= |b.calls| && After(b, k).phase.Dead?
    ensures After(b, n) == After(b, k)
    decreases n
  {
    if k < n {
      DeadStays(b, k, n - 1);
    }
  }

  // ----- the loops of the program

  datatype BatchResult = Executed(messages: seq<AgentMessage>, terminate: bool) | Failed(error: LoopError) | Pending

  lemma ReportAdded(reports: seq<CallReport>, report: CallReport)
    ensures Messages(reports + [report]) == Messages(reports) + [ToMessage(report)]
    ensures Votes(reports + [report]) == Votes(reports) + [Vote(report.call.name, report.vote)]
  {
    assert (reports + [report])[..|reports|] == reports;
  }

  lemma RanStep(b: Batch, i: nat)
    requires i < |b.calls| && After(b, i).phase.Running?
    ensures match RunOneCall(b, i)
            case Died(error) =>
              After(b, i + 1) == Progress(After(b, i).reports, After(b, i).events + [ToolExecutionStart(b.calls[i])],
                                          Dead(error))
            case Finished(report) =>
              && After(b, i + 1).events == After(b, i).events + CallEvents(report)
              && After(b, i + 1).phase == (if Boundary(b, report) then Skipping(b.calls[i].name) else Running)
              && Messages(After(b, i + 1).reports) == Messages(After(b, i).reports) + [ToMessage(report)]
              && Votes(After(b, i + 1).reports) == Votes(After(b, i).reports) + [Vote(report.call.name, report.vote)]
  {
    if RunOneCall(b, i).Finished? {
      ReportAdded(After(b, i).reports, RunOneCall(b, i).report);
    }
  }

  lemma SkipStep(b: Batch, i: nat)
    requires i < |b.calls| && After(b, i).phase.Skipping?
    ensures var s, report := After(b, i), SkippedReport(b, i, After(b, i).phase.failedTool);
            && After(b, i + 1).events == s.events + [EndEvent(report)]
            && After(b, i + 1).phase == s.phase
            && Messages(After(b, i + 1).reports) == Messages(s.reports) + [ToMessage(report)]
            && Votes(After(b, i + 1).reports) == Votes(s.reports) + [Vote(report.call.name, report.vote)]
  {
    ReportAdded(After(b, i).reports, SkippedReport(b, i, After(b, i).phase.failedTool));
  }

  /** Answers the calls from `from` on without starting them, extending what is collected so far. */
  method AnswerSkippedCalls(b: Batch, from: nat, failedTool: string, collected: seq<AgentMessage>, cast: seq<Vote>,
                            ghost start: seq<AgentEvent>, sink: EventSink)
    returns (messages: seq<AgentMessage>, votes: seq<Vote>)
    requires from <= |b.calls| && After(b, from).phase == Skipping(failedTool)
    requires collected == Messages(After(b, from).reports) && cast == Votes(After(b, from).reports)
    requires sink.log == start + After(b, from).events
    modifies sink
    ensures var s := After(b, |b.calls|);
            && s.phase == Skipping(failedTool)
            && messages == Messages(s.reports) && votes == Votes(s.reports)
            && sink.log == start + s.events
  {
    messages, votes := collected, cast;
    hide Step;
    hide After;
    for i := from to |b.calls|
      invariant After(b, i).phase == Skipping(failedTool)
      invariant sink.log == start + After(b, i).events
      invariant messages == Messages(After(b, i).reports) && votes == Votes(After(b, i).reports)
    {
      var call := b.calls[i];
      var answer := Finalize(b.config, b.view, call, call.arguments, ErrorOutput(SiblingFailed(failedTool)), true);
      var report := CallReport(call, false, answer, false);
      SkipStep(b, i);
      sink.Emit(EndEvent(report));
      messages := messages + [ToMessage(report)];
      votes := votes + [Vote(call.name, false)];
    }
  }

  method ExecuteSequential(b: Batch, sink: EventSink) returns (batch: BatchResult)
    modifies sink
    ensures var s := After(b, |b.calls|);
            && sink.log == old(sink.log) + s.events
            && batch == if s.phase.Dead? then Failed(s.phase.error)
                        else Executed(Messages(s.reports), UnanimousStop(b.config.tools, Votes(s.reports)))
  {
    var messages: seq<AgentMessage>, votes: seq<Vote> := [], [];
    var i := 0;
    var failedTool: Option<string> := None;
    hide Step;
    assert After(b, 0) == Progress([], [], Running);
    hide RunOneCall;
    hide After;
    while i < |b.calls| && failedTool.None?
      invariant 0 <= i <= |b.calls|
      invariant After(b, i).phase == if failedTool.Some? then Skipping(failedTool.value) else Running
      invariant sink.log == old(sink.log) + After(b, i).events
      invariant messages == Messages(After(b, i).reports) && votes == Votes(After(b, i).reports)
      decreases |b.calls| - i
    {
      RanStep(b, i);
      var result := RunOneToolCall(b, i, sink);
      if result.Died? {
        DeadStays(b, i + 1, |b.calls|);
        return Failed(result.error);
      }
      var report := result.report;
      messages := messages + [ToMessage(report)];
      votes := votes + [Vote(report.call.name, report.outcome.terminate)];
      if report.outcome.isError && AbortsSiblings(b.config.tools, report.call.name) {
        failedTool := Some(report.call.name);
      }
      i := i + 1;
    }
    if failedTool.Some? {
      messages, votes := AnswerSkippedCalls(b, i, failedTool.value, messages, votes, old(sink.log), sink);
    }
    var terminate := ComputeBatchTerminate(b.config.tools, votes);
    batch := Executed(messages, terminate);
  }
}

/** When an opted-in failure stops the other calls of a parallel batch. */
module SiblingAbort {
  import opened Wrappers
  import opened Transcript
  import opened Config
  import opened Dispatch
  import opened Sequential
  import opened Parallel
  import Json

  // ----- the tokens

  /** The run-wide token has fired exactly when the user has cancelled. */
  lemma {:induction false} RunTokenExact(b: Batch, schedule: seq<Move>, n: nat)
    requires n <= |schedule|
    ensures Reached(b, schedule, n).runCancelled <==> UserCancel in schedule[..n]
    decreases n
  {
    if n > 0 {
      RunTokenExact(b, schedule, n - 1);
      TakeSnoc(schedule, n);
      RunTokenStep(b, Reached(b, schedule, n - 1), schedule[n - 1]);
      hide Advance, Start;
    }
  }

  lemma RunTokenStep(b: Batch, s: Race, move: Move)
    ensures Advance(b, s, move).runCancelled <==> s.runCancelled || move.UserCancel?
  {
  }

  /** An executed call of an opted-in tool has been recorded as an error. */
  ghost predicate FailureRecorded(b: Batch, s: Race) {
    exists i :: 0 <= i < |s.completed| && DependencyFailed(b, s.completed[i].report)
  }

  /** Such a failure was recorded while the user had not cancelled. */
  ghost predicate FailedBefore(b: Batch, schedule: seq<Move>, n: nat)
    requires n <= |schedule|
  {
    exists m: nat :: m <= n && UserCancel !in schedule[..m] && FailureRecorded(b, Reached(b, schedule, m))
  }

  lemma TokenRecord(b: Batch, s: Race, k: nat, output: ToolOutput)
    requires Launches(b, k) && (s.batchCancelled <==> FailureRecorded(b, s)) && !s.runCancelled
    ensures Record(b, s, k, output).batchCancelled <==> FailureRecorded(b, Record(b, s, k, output))
  {
    var t := Record(b, s, k, output);
    assert t.completed[|s.completed|].report == LaunchedReport(b, k, output);
    FailureIsBoundary(b, LaunchedReport(b, k, output));
    hide LaunchedReport, Boundary, DependencyFailed, Launches;
    if FailureRecorded(b, s) {
      var i :| 0 <= i < |s.completed| && DependencyFailed(b, s.completed[i].report);
      assert DependencyFailed(b, t.completed[i].report);
    } else {
      forall i | 0 <= i < |s.completed| ensures t.completed[i] == s.completed[i] {
      }
    }
  }

  lemma TokenStep(b: Batch, s: Race, move: Move)
    requires (s.batchCancelled <==> FailureRecorded(b, s)) && !s.runCancelled && move.Finish?
    ensures Advance(b, s, move).batchCancelled <==> FailureRecorded(b, Advance(b, s, move))
  {
    if s.failure.None? && move.index in s.unfinished && Launches(b, move.index) {
      match ExecutePrepared(b.calls[move.index], if TokenFired(s) then move.late else b.bodies(move.index))
      case Output(output) => TokenRecord(b, s, move.index, output);
      case Fault(_) => TokenRecord(b, s, move.index, ErrorOutput(SiblingAborted));
    }
    hide Record, FailureRecorded;
  }

  lemma {:induction false} TokenWithoutCancel(b: Batch, schedule: seq<Move>, n: nat)
    requires n <= |schedule| && UserCancel !in schedule[..n]
    ensures Reached(b, schedule, n).batchCancelled <==> FailureRecorded(b, Reached(b, schedule, n))
    decreases n
  {
    if n > 0 {
      TakeSnoc(schedule, n);
      assert schedule[n - 1] in schedule[..n];
      TokenWithoutCancel(b, schedule, n - 1);
      RunTokenExact(b, schedule, n - 1);
      TokenStep(b, Reached(b, schedule, n - 1), schedule[n - 1]);
      hide Advance, Start, FailureRecorded;
    }
  }

  lemma TokenAfterCancel(b: Batch, s: Race, move: Move)
    requires s.runCancelled || move.UserCancel?
    ensures Advance(b, s, move).batchCancelled == s.batchCancelled
  {
  }

  lemma FailureStaysRecorded(b: Batch, schedule: seq<Move>, m: nat, n: nat)
    requires m <= n <= |schedule| && FailureRecorded(b, Reached(b, schedule, m))
    ensures FailureRecorded(b, Reached(b, schedule, n))
  {
    var s, t := Reached(b, schedule, m), Reached(b, schedule, n);
    RecordedStays(b, schedule, m, n);
    hide Reached, DependencyFailed;
    var i :| 0 <= i < |s.completed| && DependencyFailed(b, s.completed[i].report);
    assert t.completed[i] == s.completed[i];
  }

  /**
   The batch token, exactly, under every schedule: it has been fired iff an executed call of an
   opted-in tool was recorded as an error before any user cancel. Refused calls never fire it.
   */
  lemma {:induction false} BatchTokenExact(b: Batch, schedule: seq<Move>, n: nat)
    requires n <= |schedule|
    ensures Reached(b, schedule, n).batchCancelled <==> FailedBefore(b, schedule, n)
    decreases n
  {
    if UserCancel !in schedule[..n] {
      TokenWithoutCancel(b, schedule, n);
      if FailedBefore(b, schedule, n) {
        var m: nat :| m <= n && UserCancel !in schedule[..m] && FailureRecorded(b, Reached(b, schedule, m));
        FailureStaysRecorded(b, schedule, m, n);
      }
    } else {
      BatchTokenExact(b, schedule, n - 1);
      RunTokenExact(b, schedule, n - 1);
      TakeSnoc(schedule, n);
      TokenAfterCancel(b, Reached(b, schedule, n - 1), schedule[n - 1]);
      assert Reached(b, schedule, n).batchCancelled == Reached(b, schedule, n - 1).batchCancelled;
      hide Reached, FailureRecorded;
      assert FailedBefore(b, schedule, n - 1) <==> FailedBefore(b, schedule, n);
    }
  }

  // ----- one body returns

  /** What the body of move n answers with: its own outcome until a token has fired, and then anything. */
  ghost function Answer(b: Batch, schedule: seq<Move>, n: nat): BodyOutcome
    requires n < |schedule| && schedule[n].Finish?
  {
    if FailedBefore(b, schedule, n) || UserCancel in schedule[..n] then schedule[n].late
      else b.bodies(schedule[n].index)
  }

  /** Move n lets a launched body return that no earlier move has let return, in a batch nothing has ended. */
  predicate Returns(b: Batch, schedule: seq<Move>, n: nat) {
    && n < |schedule| && schedule[n].Finish?
    && var s := Reached(b, schedule, n); schedule[n].index in s.unfinished && s.failure.None?
  }

  /** The body's abort stands for a failed sibling, and not for the user. */
  ghost predicate SiblingStopped(b: Batch, schedule: seq<Move>, n: nat)
    requires n < |schedule| && schedule[n].Finish?
  {
    Answer(b, schedule, n).BodyAborted? && FailedBefore(b, schedule, n) && UserCancel !in schedule[..n]
  }

  lemma ReturnIs(b: Batch, schedule: seq<Move>, n: nat)
    requires Returns(b, schedule, n)
    ensures var k, s, t := schedule[n].index, Reached(b, schedule, n), Reached(b, schedule, n + 1);
            && Launches(b, k)
            && (match ExecutePrepared(b.calls[k], Answer(b, schedule, n))
                case Output(output) =>
                  t.completed == s.completed + [Entry(k, LaunchedReport(b, k, output))] && t.failure.None?
                case Fault(error) =>
                  if SiblingStopped(b, schedule, n)
                  then t.completed == s.completed + [Entry(k, LaunchedReport(b, k, ErrorOutput(SiblingAborted)))]
                    && t.failure.None?
                  else t.completed == s.completed && t.failure == Some(error))
  {
    var s := Reached(b, schedule, n);
    ReachedSound(b, schedule, n);
    RunTokenExact(b, schedule, n);
    BatchTokenExact(b, schedule, n);
    assert Reached(b, schedule, n + 1) == Advance(b, s, schedule[n]);
    hide Reached, LaunchedReport, FailedBefore, Launches;
  }

  // ----- the same, declaratively

  lemma LaunchesExactly(b: Batch, k: nat)
    requires k < |b.calls|
    ensures Launches(b, k) <==> Cleared(b.config, b.view, b.calls[k], b.allow)
  {
    PreparedExactly(b.config, b.view, b.calls[k], b.allow);
    hide Cleared, PrepareCall;
  }

  lemma LaunchedRan(b: Batch, k: nat, output: ToolOutput)
    requires Launches(b, k)
    ensures Ran(b, b.calls[k], output, LaunchedReport(b, k, output))
  {
    var call := b.calls[k];
    PreparedExactly(b.config, b.view, call, b.allow);
    var args := PrepareCall(b.config, b.view, call, b.allow).args;
    FinalizedByHooks(b.config, b.view, call, args, output);
    hide Cleared, PrepareCall, Finalized, HookedTo;
  }

  lemma ImmediateTurnedDown(b: Batch, k: nat)
    requires k < |b.calls| && !Launches(b, k)
    ensures TurnedDown(b, b.calls[k], ImmediateReport(b, k))
  {
    var call := b.calls[k];
    PreparedExactly(b.config, b.view, call, b.allow);
    FinalizedByHooks(b.config, b.view, call, call.arguments, PrepareCall(b.config, b.view, call, b.allow).output);
    hide Cleared, FirstCause, PrepareCall, Finalized, HookedTo;
  }

  /** The call's report, made from this output, is what is recorded. */
  ghost predicate RecordsOutput(b: Batch, s: Race, t: Race, k: nat, output: ToolOutput)
    requires k < |b.calls|
  {
    t.failure.None? && exists r :: Ran(b, b.calls[k], output, r) && t.completed == s.completed + [Entry(k, r)]
  }

  const SIBLING_ANSWER := ToolOutput([], true, false, Refused(SiblingAborted))

  /**
   One body's return, exactly: an output is recorded in its call's name; an abort is recorded as
   the sibling answer when a sibling has failed and the user has not cancelled; and any other
   abort or fatal error ends the batch with that error.
   */
  lemma ReturnExact(b: Batch, schedule: seq<Move>, n: nat)
    requires Returns(b, schedule, n)
    ensures var k, s, t, body := schedule[n].index, Reached(b, schedule, n), Reached(b, schedule, n + 1),
            Answer(b, schedule, n);
            && k < |b.calls|
            && (SiblingStopped(b, schedule, n) ==> RecordsOutput(b, s, t, k, SIBLING_ANSWER))
            && ((body.Returned? || body.BodyFailed?) ==>
                  exists output :: Gives(body, output) && RecordsOutput(b, s, t, k, output))
            && ((body.BodyFatal? || (body.BodyAborted? && !SiblingStopped(b, schedule, n))) ==>
                  && t.completed == s.completed
                  && exists error :: EndsRun(body, b.calls[k], error) && t.failure == Some(error))
  {
    var k, body := schedule[n].index, Answer(b, schedule, n);
    ReturnIs(b, schedule, n);
    BodyGivesOrEnds(b.calls[k], body);
    assert SiblingStopped(b, schedule, n) ==> ExecutePrepared(b.calls[k], body).Fault?;
    assert SIBLING_ANSWER == ErrorOutput(SiblingAborted);
    hide Reached, Answer, Launches, LaunchedReport, Ran, SiblingStopped, Returns;
    match ExecutePrepared(b.calls[k], body) {
      case Output(output) => LaunchedRan(b, k, output);
      case Fault(_) => LaunchedRan(b, k, ErrorOutput(SiblingAborted));
    }
  }

  lemma {:induction false} FailureStays(b: Batch, schedule: seq<Move>, m: nat, n: nat)
    requires m <= n <= |schedule| && Reached(b, schedule, m).failure.Some?
    ensures Reached(b, schedule, n).failure == Reached(b, schedule, m).failure
    decreases n
  {
    if m < n {
      FailureStays(b, schedule, m, n - 1);
    }
  }

  /** A body that reports an abort after the user has cancelled ends the batch as aborted, whatever its siblings do. */
  lemma UserAbortEndsRun(b: Batch, schedule: seq<Move>, n: nat)
    requires Returns(b, schedule, n) && UserCancel in schedule[..n] && schedule[n].late.BodyAborted?
    ensures Reached(b, schedule, |schedule|).failure == Some(AbortedRun)
  {
    ReturnIs(b, schedule, n);
    hide Reached, FailedBefore, LaunchedReport, Launches, Returns;
    FailureStays(b, schedule, n + 1, |schedule|);
  }

  /** Entry e was recorded by move m, from what that move's body answered, or as the sibling answer. */
  ghost predicate RecordedBy(b: Batch, schedule: seq<Move>, m: nat, e: Entry) {
    && Returns(b, schedule, m) && schedule[m].index == e.index && e.index < |b.calls|
    && if SiblingStopped(b, schedule, m) then Ran(b, b.calls[e.index], SIBLING_ANSWER, e.report)
       else exists output :: Gives(Answer(b, schedule, m), output) && Ran(b, b.calls[e.index], output, e.report)
  }

  lemma ReturnRecords(b: Batch, schedule: seq<Move>, n: nat)
    requires Returns(b, schedule, n) && |Reached(b, schedule, n + 1).completed| > |Reached(b, schedule, n).completed|
    ensures var s, t := Reached(b, schedule, n), Reached(b, schedule, n + 1);
            |t.completed| == |s.completed| + 1 && RecordedBy(b, schedule, n, t.completed[|s.completed|])
  {
    ReturnIs(b, schedule, n);
    var k, body := schedule[n].index, Answer(b, schedule, n);
    BodyGivesOrEnds(b.calls[k], body);
    assert SiblingStopped(b, schedule, n) ==> ExecutePrepared(b.calls[k], body).Fault?;
    assert k < |b.calls|;
    assert SIBLING_ANSWER == ErrorOutput(SiblingAborted);
    hide Reached, Answer, Launches, LaunchedReport, Ran, SiblingStopped, Returns;
    match ExecutePrepared(b.calls[k], body) {
      case Output(output) => LaunchedRan(b, k, output);
      case Fault(_) => LaunchedRan(b, k, ErrorOutput(SiblingAborted));
    }
  }

  /**
   Where a recorded answer comes from: every entry is what the body of its own call answered, at the
   move that let it return.
   */
  lemma {:induction false} AnswersAreBodies(b: Batch, schedule: seq<Move>, n: nat, i: nat)
    requires n <= |schedule| && i < |Reached(b, schedule, n).completed|
    ensures exists m: nat :: m < n && RecordedBy(b, schedule, m, Reached(b, schedule, n).completed[i])
    decreases n
  {
    if n > 0 {
      var s, t := Reached(b, schedule, n - 1), Reached(b, schedule, n);
      if i < |s.completed| {
        AnswersAreBodies(b, schedule, n - 1, i);
        RecordedStays(b, schedule, n - 1, n);
      } else {
        assert Returns(b, schedule, n - 1);
        ReturnRecords(b, schedule, n - 1);
        hide Reached, RecordedBy, Returns;
        assert RecordedBy(b, schedule, n - 1, t.completed[i]);
      }
    }
  }

  /**
   The reports of a finished batch, exactly: a cleared call's is what its body answered, any other's
   says why it may not run.
   */
  lemma FinalReportsExactly(b: Batch, schedule: seq<Move>, k: nat)
    requires Over(Reached(b, schedule, |schedule|)) && k < |b.calls|
    ensures var reports := FinalReports(b, Reached(b, schedule, |schedule|));
            && |reports| == |b.calls|
            && if Cleared(b.config, b.view, b.calls[k], b.allow)
              then exists m: nat :: RecordedBy(b, schedule, m, Entry(k, reports[k]))
               else TurnedDown(b, b.calls[k], reports[k])
  {
    var s := Reached(b, schedule, |schedule|);
    ReachedSound(b, schedule, |schedule|);
    FinalReportAt(b, s, k);
    ImmediateExact(b, |b.calls|);
    LaunchesExactly(b, k);
    var e := Entry(k, FinalReports(b, s)[k]);
    hide Reached, FinalReports, ImmediateReport, Launches, Cleared, TurnedDown, RecordedBy, LaunchedReport;
    if e in s.completed {
      var i :| 0 <= i < |s.completed| && s.completed[i] == e;
      assert Genuine(b, s, s.completed[i]);
      AnswersAreBodies(b, schedule, |schedule|, i);
    } else {
      ImmediateTurnedDown(b, k);
    }
  }

  /** A batch that fails does so with the error of a body that returned, and that no sibling's failure had stopped. */
  lemma {:induction false} FailureHasCause(b: Batch, schedule: seq<Move>, n: nat)
    requires n <= |schedule| && Reached(b, schedule, n).failure.Some?
    ensures exists m: nat ::
              && m < n && Returns(b, schedule, m) && schedule[m].index < |b.calls| && !SiblingStopped(b, schedule, m)
              && EndsRun(Answer(b, schedule, m), b.calls[schedule[m].index], Reached(b, schedule, n).failure.value)
    decreases n
  {
    if n > 0 {
      if Reached(b, schedule, n - 1).failure.Some? {
        FailureHasCause(b, schedule, n - 1);
        FailureStays(b, schedule, n - 1, n);
      } else {
        assert Returns(b, schedule, n - 1);
        ReturnIs(b, schedule, n - 1);
        BodyGivesOrEnds(b.calls[schedule[n - 1].index], Answer(b, schedule, n - 1));
        hide Reached, Answer, SiblingStopped, LaunchedReport, Launches, EndsRun, Returns;
      }
    }
  }

  // ----- cooperative tools

  /** Tools play by the rules: none is fatal, and none reports an abort before its token fired. */
  predicate Cooperative(b: Batch, schedule: seq<Move>) {
    && (forall k: nat :: k < |b.calls| ==> !b.bodies(k).BodyFatal? && !b.bodies(k).BodyAborted?)
    && (forall i :: 0 <= i < |schedule| && schedule[i].Finish? ==> !schedule[i].late.BodyFatal?)
  }

  lemma CooperativeStep(b: Batch, s: Race, move: Move)
    requires forall k: nat :: k < |b.calls| ==> !b.bodies(k).BodyFatal? && !b.bodies(k).BodyAborted?
    requires move.Finish? && !move.late.BodyFatal?
    requires s.failure.None? && !s.runCancelled
    ensures Advance(b, s, move).failure.None? && !Advance(b, s, move).runCancelled
  {
  }

  lemma {:induction false} NeverFails(b: Batch, schedule: seq<Move>, n: nat)
    requires Cooperative(b, schedule) && NoUserCancel(schedule) && n <= |schedule|
    ensures Reached(b, schedule, n).failure.None? && !Reached(b, schedule, n).runCancelled
    decreases n
  {
    if n > 0 {
      NeverFails(b, schedule, n - 1);
      assert schedule[n - 1] in schedule;
      CooperativeStep(b, Reached(b, schedule, n - 1), schedule[n - 1]);
    }
  }

  /**
   A sibling abort never ends the run: as long as the user does not cancel, no schedule of
   cooperative tools makes the batch fail, and its token has fired exactly when some executed
   call of an opted-in tool was recorded as an error.
   */
  lemma NeverEndsRun(b: Batch, schedule: seq<Move>, n: nat)
    requires Cooperative(b, schedule) && NoUserCancel(schedule) && n <= |schedule|
    ensures var s := Reached(b, schedule, n);
            && s.failure.None?
            && (s.batchCancelled <==> exists i :: 0 <= i < |s.completed| && s.completed[i].report.started
                                               && DependencyFailed(b, s.completed[i].report))
  {
    NeverFails(b, schedule, n);
    ReachedSound(b, schedule, n);
    TokenWithoutCancel(b, schedule, n);
    var s := Reached(b, schedule, n);
    forall i | 0 <= i < |s.completed| ensures s.completed[i].report.started {
      assert Genuine(b, s, s.completed[i]);
    }
  }

  /** An entry recorded at any time is the finished batch's report for its position. */
  lemma RecordedIsFinal(b: Batch, schedule: seq<Move>, n: nat, e: Entry)
    requires n <= |schedule| && Over(Reached(b, schedule, |schedule|)) && e in Reached(b, schedule, n).completed
    ensures var s := Reached(b, schedule, |schedule|);
            e.index < |b.calls| && |FinalReports(b, s)| == |b.calls| && FinalReports(b, s)[e.index] == e.report
  {
    var s := Reached(b, schedule, |schedule|);
    RecordedStays(b, schedule, n, |schedule|);
    ReachedSound(b, schedule, |schedule|);
    assert e in s.completed;
    var i :| 0 <= i < |s.completed| && s.completed[i] == e;
    assert Genuine(b, s, s.completed[i]);
    FinalReportAt(b, s, e.index);
    ImmediateExact(b, |b.calls|);
    var f := Entry(e.index, FinalReports(b, s)[e.index]);
    hide Reached, FinalReports, ImmediateEntries, Genuine;
    OneEntryEach(b, s, e, f);
  }

  lemma OneEntryEach(b: Batch, s: Race, e: Entry, f: Entry)
    requires Sound(b, s) && e in s.completed && f in AllEntries(b, s) && e.index == f.index
    ensures e == f
  {
    var i :| 0 <= i < |s.completed| && s.completed[i] == e;
    assert Genuine(b, s, s.completed[i]);
    ImmediateExact(b, |b.calls|);
    if f in s.completed {
      var j :| 0 <= j < |s.completed| && s.completed[j] == f;
    }
  }

  lemma AbortReportIsError(b: Batch, k: nat)
    requires Launches(b, k) && HooksKeepErrors(b.config)
    ensures LaunchedReport(b, k, ErrorOutput(SiblingAborted)).outcome.isError
  {
    var args := PrepareCall(b.config, b.view, b.calls[k], b.allow).args;
    ErrorsSurvive(b.config, b.view, b.calls[k], args, ErrorOutput(SiblingAborted), |b.config.afterHooks|);
  }

  /**
   Under every interleaving without a user cancel: once an opted-in failure has been recorded, a
   call that stops with an abort is, in the finished batch, the sibling answer at its own place,
   and an error unless an after-hook clears it.
   */
  lemma AbortedSiblingIsError(b: Batch, schedule: seq<Move>, n: nat, k: nat)
    requires NoUserCancel(schedule) && Returns(b, schedule, n) && schedule[n] == Finish(k, BodyAborted)
    requires FailureRecorded(b, Reached(b, schedule, n)) && Over(Reached(b, schedule, |schedule|))
    ensures var reports := FinalReports(b, Reached(b, schedule, |schedule|));
            && Launches(b, k) && k < |reports| && reports[k] == LaunchedReport(b, k, ErrorOutput(SiblingAborted))
            && (HooksKeepErrors(b.config) ==> reports[k].outcome.isError)
  {
    hide *;
    StoppedCall(b, schedule, n, k);
    RecordedIsFinal(b, schedule, n + 1, Entry(k, LaunchedReport(b, k, ErrorOutput(SiblingAborted))));
    if HooksKeepErrors(b.config) {
      AbortReportIsError(b, k);
    }
  }

  lemma StoppedCall(b: Batch, schedule: seq<Move>, n: nat, k: nat)
    requires NoUserCancel(schedule) && Returns(b, schedule, n) && schedule[n] == Finish(k, BodyAborted)
    requires FailureRecorded(b, Reached(b, schedule, n))
    ensures n < |schedule| && Launches(b, k)
    ensures Entry(k, LaunchedReport(b, k, ErrorOutput(SiblingAborted))) in Reached(b, schedule, n + 1).completed
  {
    assert n < |schedule|;
    FailureCounts(b, schedule, n);
    ReturnIs(b, schedule, n);
    hide *;
    StoppedAnswer(b, schedule, n, k);
  }

  lemma FailureCounts(b: Batch, schedule: seq<Move>, n: nat)
    requires NoUserCancel(schedule) && n <= |schedule| && FailureRecorded(b, Reached(b, schedule, n))
    ensures FailedBefore(b, schedule, n)
  {
    hide Reached, FailureRecorded;
  }

  lemma StoppedAnswer(b: Batch, schedule: seq<Move>, n: nat, k: nat)
    requires NoUserCancel(schedule) && Returns(b, schedule, n) && schedule[n] == Finish(k, BodyAborted)
    requires FailedBefore(b, schedule, n) && Launches(b, k)
    ensures Entry(k, LaunchedReport(b, k, ErrorOutput(SiblingAborted))) in Reached(b, schedule, n + 1).completed
  {
    ReturnIs(b, schedule, n);
    hide Reached, FailedBefore, LaunchedReport, Launches, Returns;
  }

  // ----- refused calls

  /**
   Where the two dispatch modes part: a refused call of an opted-in tool stops later calls in
   sequential mode and never does in parallel mode.
   */
  lemma RefusedCallDiverges(b: Batch, schedule: seq<Move>, f: nat, k: nat)
    requires f < k < |b.calls| && !Launches(b, f) && Launches(b, k)
    requires DependencyFailed(b, ImmediateReport(b, f)) && After(b, f).phase.Running?
    requires Over(Reached(b, schedule, |schedule|))
    ensures k < |After(b, |b.calls|).reports| && !After(b, |b.calls|).reports[k].started
    ensures var t := Reached(b, schedule, |schedule|); k < |FinalReports(b, t)| && FinalReports(b, t)[k].started
  {
    RefusedCallSkips(b, f, k);
    var s := Reached(b, schedule, |schedule|);
    ReachedSound(b, schedule, |schedule|);
    FinalReportAt(b, s, k);
    EntryCall(b, s, Entry(k, FinalReports(b, s)[k]));
  }

  lemma RefusedCallSkips(b: Batch, f: nat, k: nat)
    requires f < k < |b.calls| && !Launches(b, f)
    requires DependencyFailed(b, ImmediateReport(b, f)) && After(b, f).phase.Running?
    ensures k < |After(b, |b.calls|).reports| && !After(b, |b.calls|).reports[k].started
  {
    RefusalStops(b, f);
    hide After, DependencyFailed, ImmediateReport, Launches;
    if f + 1 < k {
      SkippingPersists(b, f + 1, k);
    }
    SkippingPersists(b, k, |b.calls|);
  }

  lemma RefusalStops(b: Batch, f: nat)
    requires f < |b.calls| && !Launches(b, f)
    requires DependencyFailed(b, ImmediateReport(b, f)) && After(b, f).phase.Running?
    ensures After(b, f + 1).phase.Skipping?
  {
    FailureIsBoundary(b, ImmediateReport(b, f));
    assert RunOneCall(b, f) == RunOne.Finished(ImmediateReport(b, f));
    RanStep(b, f);
    hide After, RunOneCall, ImmediateReport, Boundary, Messages, Votes, CallEvents;
  }

  // ----- a failure and a refusal

  function DemoTool(aborts: bool): Tool {
    Tool(false, false, true, aborts, false, None, args => args, args => None)
  }

  const DEMO_TOOLS: Registry := map["build" := DemoTool(true), "read" := DemoTool(false)]

  function DemoConfig(): LoopConfig {
    LoopConfig(DEMO_TOOLS, None, false,
               (calls: seq<ToolCall>, i: nat) => if i < |calls| then calls[i] else ToolCall("", "", Json.Null),
               [], [], [], [], None, NoReasoning, None, (messages: seq<AgentMessage>) => |messages|, None, {},
               (messages: seq<AgentMessage>, iteration: nat) => "")
  }

  const SUCCESS := ToolOutput([], false, false, NoDetails)

  /** A build, whose tool stops its siblings when it fails, beside a read that would succeed. */
  function DemoBatch(allow: Option<set<string>>): Batch {
    Batch(DemoConfig(), TurnView(System(""), []), allow,
          [ToolCall("1", "build", Json.Null), ToolCall("2", "read", Json.Null)],
          (k: nat) => if k == 0 then BodyFailed("exit 1") else Returned(SUCCESS))
  }

  const DEMO_SCHEDULE: seq<Move> := [Finish(0, BodyAborted), Finish(1, BodyAborted)]

  lemma DemoLaunches(allow: Option<set<string>>, k: nat)
    requires k < 2
    ensures Launches(DemoBatch(allow), k) <==> allow.None? || DemoBatch(allow).calls[k].name in allow.value
  {
    assert DemoConfig().beforeHooks == [];
  }

  lemma DemoFinalized(call: ToolCall, args: Json.Value, output: ToolOutput)
    ensures Finalized(DemoConfig(), TurnView(System(""), []), call, args, output)
            == FinalizedOutcome(output, output.isError, output.terminate)
  {
    assert DemoConfig().afterHooks == [];
  }

  lemma DemoReport(allow: Option<set<string>>, k: nat, output: ToolOutput)
    requires k < 2 && Launches(DemoBatch(allow), k)
    ensures var b := DemoBatch(allow);
            LaunchedReport(b, k, output)
              == Report(b.calls[k], true, FinalizedOutcome(output, output.isError, output.terminate))
  {
    var b := DemoBatch(allow);
    DemoFinalized(b.calls[k], PrepareCall(b.config, b.view, b.calls[k], b.allow).args, output);
    hide Finalized, PrepareCall;
  }

  /** The build fails first: the read, asked to stop, is answered by the sibling answer. */
  lemma FailureStopsSibling()
    ensures var b := DemoBatch(None); var s := Reached(b, DEMO_SCHEDULE, 2);
            && FailureRecorded(b, Reached(b, DEMO_SCHEDULE, 1)) && Over(s) && Launches(b, 1)
            && |FinalReports(b, s)| == 2
            && FinalReports(b, s)[1] == LaunchedReport(b, 1, ErrorOutput(SiblingAborted))
            && FinalReports(b, s)[1].outcome.isError
  {
    var b := DemoBatch(None);
    DemoLaunches(None, 0);
    DemoLaunches(None, 1);
    DemoReport(None, 0, ErrorOutput(ExecutionFailed("exit 1")));
    DemoReport(None, 1, ErrorOutput(SiblingAborted));
    hide Launches, LaunchedReport, FinalReports, DemoConfig;
    var start, first, last := Reached(b, DEMO_SCHEDULE, 0), Reached(b, DEMO_SCHEDULE, 1), Reached(b, DEMO_SCHEDULE, 2);
    assert start.unfinished == {0, 1};
    assert first == FinishBody(b, start, 0, BodyAborted) == Record(b, start, 0, ErrorOutput(ExecutionFailed("exit 1")));
    assert first.batchCancelled && first.unfinished == {1} && Boundary(b, first.completed[0].report);
    assert last == FinishBody(b, first, 1, BodyAborted) == Record(b, first, 1, ErrorOutput(SiblingAborted));
    assert last.unfinished == {} && last.completed[1] in last.completed;
    RecordedIsFinal(b, DEMO_SCHEDULE, 2, last.completed[1]);
  }

  /** The build is refused instead: the read runs to its end in parallel, and is never started sequentially. */
  lemma RefusalSparesSibling()
    ensures var b := DemoBatch(Some({"read"})); var s := Reached(b, DEMO_SCHEDULE, 2);
            && !Launches(b, 0) && DependencyFailed(b, ImmediateReport(b, 0)) && Over(s) && Launches(b, 1)
            && |FinalReports(b, s)| == 2
            && FinalReports(b, s)[1] == LaunchedReport(b, 1, SUCCESS)
            && |After(b, 2).reports| == 2 && After(b, 2).reports[1] == SkippedReport(b, 1, "build")
  {
    var b := DemoBatch(Some({"read"}));
    DemoLaunches(Some({"read"}), 0);
    DemoLaunches(Some({"read"}), 1);
    RefusedBuild();
    hide Launches, LaunchedReport, FinalReports, DemoConfig, ImmediateReport, SkippedReport, After;
    var start, first, last := Reached(b, DEMO_SCHEDULE, 0), Reached(b, DEMO_SCHEDULE, 1), Reached(b, DEMO_SCHEDULE, 2);
    assert start.unfinished == {1};
    assert first == start;
    assert last == FinishBody(b, first, 1, BodyAborted) == Record(b, first, 1, SUCCESS);
    assert last.unfinished == {} && last.completed[0] in last.completed;
    RecordedIsFinal(b, DEMO_SCHEDULE, 2, last.completed[0]);
  }

  lemma RefusedBuild()
    ensures var b := DemoBatch(Some({"read"}));
            && !Launches(b, 0) && DependencyFailed(b, ImmediateReport(b, 0))
            && |After(b, 2).reports| == 2 && After(b, 2).reports[1] == SkippedReport(b, 1, "build")
  {
    var b := DemoBatch(Some({"read"}));
    DemoLaunches(Some({"read"}), 0);
    DemoFinalized(b.calls[0], b.calls[0].arguments, ErrorOutput(Hidden));
    assert ImmediateReport(b, 0) == Report(b.calls[0], false, FinalizedOutcome(ErrorOutput(Hidden), true, false));
    assert RunOneCall(b, 0) == RunOne.Finished(ImmediateReport(b, 0));
    hide RunOneCall, ImmediateReport, SkippedReport, Finalized, Launches;
    assert After(b, 1).phase == Skipping("build") && |After(b, 1).reports| == 1;
    assert After(b, 2) == Step(b, After(b, 1), 1);
  }
}

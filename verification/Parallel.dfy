/** Parallel dispatch as a step system (src/exec.rs). */
module Parallel {
  import opened Wrappers
  import opened Transcript
  import opened Config
  import opened Dispatch
  import opened Sequential

  /*
   Bodies finish in any order, the user may cancel at any moment, and an opted-in failure cancels
   the batch. Every sequence of steps is one schedule.
   */

  /** A finished call with its position in the batch. */
  datatype Entry = Entry(index: nat, report: CallReport)

  datatype Race = Race(
    unfinished: set<nat>,
    completed: seq<Entry>,
    batchCancelled: bool,
    runCancelled: bool,
    failure: Option<LoopError>)

  /**
   `UserCancel` fires the run-wide token. `Finish(index, late)` lets one body return: what it
   returns is its own outcome as long as no token has fired, and `late`, anything at all, after.
   */
  datatype Move = UserCancel | Finish(index: nat, late: BodyOutcome)

  predicate Launches(b: Batch, k: nat) {
    k < |b.calls| && PrepareCall(b.config, b.view, b.calls[k], b.allow).Ready?
  }

  function Start(b: Batch): Race {
    Race(set k: nat | k < |b.calls| && Launches(b, k), [], false, false, None)
  }

  predicate TokenFired(s: Race) {
    s.batchCancelled || s.runCancelled
  }

  /** The report of a launched call whose body, or the runtime for it, produced `output`. */
  function LaunchedReport(b: Batch, k: nat, output: ToolOutput): CallReport
    requires Launches(b, k)
  {
    var call := b.calls[k];
    var args := PrepareCall(b.config, b.view, call, b.allow).args;
    Report(call, true, Finalized(b.config, b.view, call, args, output))
  }

  /** A finished call enters the completed list; an opted-in error cancels the batch token. */
  function Record(b: Batch, s: Race, k: nat, output: ToolOutput): Race
    requires Launches(b, k)
  {
    var report := LaunchedReport(b, k, output);
    s.(unfinished := s.unfinished - {k},
       completed := s.completed + [Entry(k, report)],
       batchCancelled := s.batchCancelled || (Boundary(b, report) && !s.runCancelled))
  }

  function FinishBody(b: Batch, s: Race, k: nat, late: BodyOutcome): Race
    requires Launches(b, k)
  {
    match ExecutePrepared(b.calls[k], if TokenFired(s) then late else b.bodies(k))
    case Output(output) => Record(b, s, k, output)
    case Fault(error) =>
      if error.AbortedRun? && s.batchCancelled && !s.runCancelled
      then Record(b, s, k, ErrorOutput(SiblingAborted))
      else s.(failure := Some(error))
  }

  function Advance(b: Batch, s: Race, move: Move): Race {
    match move
    case UserCancel => s.(runCancelled := true)
    case Finish(k, late) =>
      if s.failure.Some? || k !in s.unfinished || !Launches(b, k) then s else FinishBody(b, s, k, late)
  }

  /** The race after the first n moves of a schedule. */
  function Reached(b: Batch, schedule: seq<Move>, n: nat): Race
    requires n <= |schedule|
    decreases n
  {
    if n == 0 then Start(b) else Advance(b, Reached(b, schedule, n - 1), schedule[n - 1])
  }

  /** The calls answered without a body, among the first n. */
  function ImmediateEntries(b: Batch, n: nat): seq<Entry>
    requires n <= |b.calls|
    decreases n
  {
    if n == 0 then []
    else if Launches(b, n - 1) then ImmediateEntries(b, n - 1)
    else ImmediateEntries(b, n - 1) + [Entry(n - 1, ImmediateReport(b, n - 1))]
  }

  function ImmediateReport(b: Batch, k: nat): CallReport
    requires k < |b.calls| && !Launches(b, k)
  {
    var call := b.calls[k];
    var output := PrepareCall(b.config, b.view, call, b.allow).output;
    Report(call, false, Finalized(b.config, b.view, call, call.arguments, output))
  }

  // ----- sorting by position

  function InsertEntry(e: Entry, s: seq<Entry>): seq<Entry> {
    if s == [] then [e]
    else if e.index < s[0].index then [e] + s
    else [s[0]] + InsertEntry(e, s[1..])
  }

  function SortEntries(s: seq<Entry>): seq<Entry> {
    if s == [] then [] else InsertEntry(s[0], SortEntries(s[1..]))
  }

  predicate IndexIncreasing(s: seq<Entry>) {
    forall i, j :: 0 <= i < j < |s| ==> s[i].index < s[j].index
  }

  predicate IndexDistinct(s: seq<Entry>) {
    forall i, j :: 0 <= i < j < |s| ==> s[i].index != s[j].index
  }

  lemma {:induction false} InsertSorts(e: Entry, s: seq<Entry>)
    requires IndexIncreasing(s) && forall x :: x in s ==> x.index != e.index
    ensures IndexIncreasing(InsertEntry(e, s))
    ensures forall x :: x in InsertEntry(e, s) <==> x == e || x in s
  {
    if s != [] && e.index >= s[0].index {
      InsertSorts(e, s[1..]);
      var t := InsertEntry(e, s[1..]);
      forall x ensures x in [s[0]] + t <==> x == e || x in s {
        assert x in s <==> x == s[0] || x in s[1..];
      }
      forall j | 0 <= j < |t| ensures s[0].index < t[j].index {
        assert t[j] in t;
        if t[j] != e { assert t[j] in s[1..]; }
      }
    }
  }

  lemma {:induction false} SortSorts(s: seq<Entry>)
    requires IndexDistinct(s)
    ensures IndexIncreasing(SortEntries(s))
    ensures forall x :: x in SortEntries(s) <==> x in s
  {
    if s != [] {
      SortSorts(s[1..]);
      forall x | x in SortEntries(s[1..]) ensures x.index != s[0].index {
        assert x in s[1..];
      }
      InsertSorts(s[0], SortEntries(s[1..]));
      forall x ensures x in SortEntries(s) <==> x in s {
        assert x in s <==> x == s[0] || x in s[1..];
      }
    }
  }

  function Indices(s: seq<Entry>): (r: seq<nat>)
    ensures |r| == |s|
    ensures forall k :: 0 <= k < |s| ==> r[k] == s[k].index
  {
    if s == [] then [] else [s[0].index] + Indices(s[1..])
  }

  predicate Holds(s: seq<Entry>, k: nat) {
    exists i :: 0 <= i < |s| && s[i].index == k
  }

  /** Entries for exactly the positions below n come out in source order, whatever order they went in. */
  lemma SortPlaces(s: seq<Entry>, n: nat)
    requires IndexDistinct(s)
    requires forall k: nat :: Holds(s, k) <==> k < n
    ensures |SortEntries(s)| == n
    ensures forall k :: 0 <= k < n ==> SortEntries(s)[k].index == k && SortEntries(s)[k] in s
  {
    SortSorts(s);
    var t := SortEntries(s);
    forall v: nat ensures v in Indices(t) <==> v < n {
      if v in Indices(t) {
        var j :| 0 <= j < |t| && Indices(t)[j] == v;
        assert t[j] in t && t[j] in s;
        assert Holds(s, v);
      }
      if v < n {
        assert Holds(s, v);
        var i :| 0 <= i < |s| && s[i].index == v;
        var e := s[i];
        assert e in t;
        var j :| 0 <= j < |t| && t[j] == e;
        assert Indices(t)[j] == v;
      }
    }
    IncreasingCover(Indices(t), n);
    forall k | 0 <= k < n ensures t[k].index == k && t[k] in s {
      assert Indices(t)[k] == k;
      assert t[k] in t;
    }
  }

  function Reports(s: seq<Entry>): (r: seq<CallReport>)
    ensures |r| == |s|
  {
    if s == [] then [] else Reports(s[..|s| - 1]) + [s[|s| - 1].report]
  }

  /** The reports of a finished race in source order. */
  function FinalReports(b: Batch, s: Race): seq<CallReport> {
    Reports(SortEntries(s.completed + ImmediateEntries(b, |b.calls|)))
  }

  // ----- every schedule

  /** What every schedule keeps: each launched call is unfinished or recorded once, under its own position. */
  ghost predicate Sound(b: Batch, s: Race) {
    && IndexDistinct(s.completed)
    && (forall k :: k in s.unfinished ==> Launches(b, k))
    && (forall i :: 0 <= i < |s.completed| ==> Genuine(b, s, s.completed[i]))
    && (forall k: nat :: Launches(b, k) && k !in s.unfinished ==> Holds(s.completed, k))
    && (s.batchCancelled ==> exists i :: 0 <= i < |s.completed| && Boundary(b, s.completed[i].report))
  }

  /** An entry is the finalized output of its own launched call. */
  ghost predicate Genuine(b: Batch, s: Race, e: Entry) {
    && Launches(b, e.index) && e.index !in s.unfinished
    && exists output :: e.report == LaunchedReport(b, e.index, output)
  }

  lemma RecordSound(b: Batch, s: Race, k: nat, output: ToolOutput)
    requires Sound(b, s) && k in s.unfinished
    ensures Sound(b, Record(b, s, k, output))
  {
    var t := Record(b, s, k, output);
    forall i | 0 <= i < |t.completed| ensures Genuine(b, t, t.completed[i]) {
      if i < |s.completed| {
        assert Genuine(b, s, s.completed[i]);
      } else {
        assert t.completed[i].report == LaunchedReport(b, k, output);
      }
    }
    forall j: nat | Launches(b, j) && j !in t.unfinished ensures Holds(t.completed, j) {
      if j == k {
        assert t.completed[|s.completed|].index == j;
      } else {
        assert Holds(s.completed, j);
        var i :| 0 <= i < |s.completed| && s.completed[i].index == j;
        assert t.completed[i].index == j;
      }
    }
    if t.batchCancelled {
      if s.batchCancelled {
        var i :| 0 <= i < |s.completed| && Boundary(b, s.completed[i].report);
        assert Boundary(b, t.completed[i].report);
      } else {
        assert Boundary(b, t.completed[|s.completed|].report);
      }
    }
  }

  lemma {:induction false} ReachedSound(b: Batch, schedule: seq<Move>, n: nat)
    requires n <= |schedule|
    ensures Sound(b, Reached(b, schedule, n))
    decreases n
  {
    if n > 0 {
      ReachedSound(b, schedule, n - 1);
      var s := Reached(b, schedule, n - 1);
      AdvanceSound(b, s, schedule[n - 1]);
    }
  }

  lemma AdvanceSound(b: Batch, s: Race, move: Move)
    requires Sound(b, s)
    ensures Sound(b, Advance(b, s, move))
  {
    if move.Finish? && s.failure.None? && move.index in s.unfinished {
      var k := move.index;
      match ExecutePrepared(b.calls[k], if TokenFired(s) then move.late else b.bodies(k))
      case Output(output) => RecordSound(b, s, k, output);
      case Fault(error) => RecordSound(b, s, k, ErrorOutput(SiblingAborted));
    }
  }

  predicate Over(s: Race) {
    s.unfinished == {} && s.failure.None?
  }

  lemma {:induction false} ImmediateExact(b: Batch, n: nat)
    requires n <= |b.calls|
    ensures IndexIncreasing(ImmediateEntries(b, n))
    ensures forall i :: 0 <= i < |ImmediateEntries(b, n)| ==>
              var e := ImmediateEntries(b, n)[i];
              e.index < n && !Launches(b, e.index) && e.report == ImmediateReport(b, e.index)
    ensures forall k: nat :: k < n && !Launches(b, k) ==> Holds(ImmediateEntries(b, n), k)
    decreases n
  {
    if n > 0 {
      ImmediateExact(b, n - 1);
      var before, after := ImmediateEntries(b, n - 1), ImmediateEntries(b, n);
      forall k: nat | k < n && !Launches(b, k) ensures Holds(after, k) {
        if k < n - 1 {
          assert Holds(before, k);
          var i :| 0 <= i < |before| && before[i].index == k;
          assert after[i].index == k;
        } else {
          assert after[|before|].index == k;
        }
      }
    }
  }

  function AllEntries(b: Batch, s: Race): seq<Entry> {
    s.completed + ImmediateEntries(b, |b.calls|)
  }

  /** Once no body is outstanding, position k of the sorted entries is call k's own entry. */
  lemma OverPlaces(b: Batch, s: Race)
    requires Sound(b, s) && Over(s)
    ensures var t := SortEntries(AllEntries(b, s));
            |t| == |b.calls| && forall k :: 0 <= k < |t| ==> t[k].index == k && t[k] in AllEntries(b, s)
  {
    var all, now := AllEntries(b, s), ImmediateEntries(b, |b.calls|);
    ImmediateExact(b, |b.calls|);
    forall i, j | 0 <= i < j < |all| ensures all[i].index != all[j].index {
      if i < |s.completed| <= j {
        assert Genuine(b, s, s.completed[i]);
        assert all[j] == now[j - |s.completed|];
      } else if |s.completed| <= i {
        assert all[i] == now[i - |s.completed|] && all[j] == now[j - |s.completed|];
      }
    }
    forall k: nat ensures Holds(all, k) <==> k < |b.calls| {
      OverHolds(b, s, k);
    }
    SortPlaces(all, |b.calls|);
  }

  lemma OverHolds(b: Batch, s: Race, k: nat)
    requires Sound(b, s) && Over(s)
    ensures Holds(AllEntries(b, s), k) <==> k < |b.calls|
  {
    var now := ImmediateEntries(b, |b.calls|);
    ImmediateExact(b, |b.calls|);
    HoldsConcat(s.completed, now, k);
    if Holds(s.completed, k) {
      var i :| 0 <= i < |s.completed| && s.completed[i].index == k;
      assert Genuine(b, s, s.completed[i]);
    }
    if k < |b.calls| && Launches(b, k) {
      assert Holds(s.completed, k);
    }
  }

  lemma HoldsConcat(x: seq<Entry>, y: seq<Entry>, k: nat)
    ensures Holds(x + y, k) <==> Holds(x, k) || Holds(y, k)
  {
    if Holds(x, k) {
      var i :| 0 <= i < |x| && x[i].index == k;
      assert (x + y)[i].index == k;
    }
    if Holds(y, k) {
      var i :| 0 <= i < |y| && y[i].index == k;
      assert (x + y)[|x| + i].index == k;
    }
    if Holds(x + y, k) {
      var i :| 0 <= i < |x + y| && (x + y)[i].index == k;
      assert if i < |x| then x[i].index == k else y[i - |x|].index == k;
    }
  }

  /** The report at position k comes from an entry recorded for call k. */
  lemma FinalReportAt(b: Batch, s: Race, k: nat)
    requires Sound(b, s) && Over(s) && k < |b.calls|
    ensures |FinalReports(b, s)| == |b.calls|
    ensures Entry(k, FinalReports(b, s)[k]) in AllEntries(b, s)
  {
    OverPlaces(b, s);
    ReportsAt(SortEntries(AllEntries(b, s)), k);
  }

  lemma {:induction false} ReportsAt(s: seq<Entry>, k: nat)
    requires k < |s|
    ensures Reports(s)[k] == s[k].report
    decreases |s|
  {
    if k < |s| - 1 {
      ReportsAt(s[..|s| - 1], k);
    }
  }

  /**
   Whatever the schedule, a race that ends without a run-ending failure answers every call
   exactly once and in source order.
   */
  lemma SourceOrder(b: Batch, schedule: seq<Move>)
    requires Over(Reached(b, schedule, |schedule|))
    ensures Calls(FinalReports(b, Reached(b, schedule, |schedule|))) == b.calls
  {
    var s := Reached(b, schedule, |schedule|);
    ReachedSound(b, schedule, |schedule|);
    var reports := FinalReports(b, s);
    OverPlaces(b, s);
    forall k | 0 <= k < |b.calls| ensures reports[k].call == b.calls[k] {
      FinalReportAt(b, s, k);
      EntryCall(b, s, Entry(k, reports[k]));
    }
    CallsAre(reports, b.calls);
  }

  lemma EntryCall(b: Batch, s: Race, e: Entry)
    requires Sound(b, s) && e in AllEntries(b, s)
    ensures e.index < |b.calls| && e.report.call == b.calls[e.index]
    ensures e.report.started == Launches(b, e.index)
    ensures e.report.vote == e.report.outcome.terminate
  {
    ImmediateExact(b, |b.calls|);
    if e in s.completed {
      var i :| 0 <= i < |s.completed| && s.completed[i] == e;
      assert Genuine(b, s, s.completed[i]);
    }
  }

  lemma {:induction false} CallsAre(reports: seq<CallReport>, calls: seq<ToolCall>)
    requires |reports| == |calls| && forall k :: 0 <= k < |calls| ==> reports[k].call == calls[k]
    ensures Calls(reports) == calls
    decreases |calls|
  {
    if calls != [] {
      CallsAre(reports[..|reports| - 1], calls[..|calls| - 1]);
    }
  }

  // ----- schedule independence

  predicate NoUserCancel(schedule: seq<Move>) {
    UserCancel !in schedule
  }

  /** Left to itself the batch is calm: no body ends the run and no finished call is a dependency failure. */
  predicate Calm(b: Batch) {
    forall k: nat :: k < |b.calls| ==>
      RunOneCall(b, k).Finished? && !Boundary(b, RunOneCall(b, k).report)
  }

  ghost predicate Undisturbed(b: Batch, s: Race) {
    && !s.batchCancelled && !s.runCancelled && s.failure.None?
    && forall i :: 0 <= i < |s.completed| ==>
         s.completed[i].index < |b.calls|
           && RunOneCall(b, s.completed[i].index) == RunOne.Finished(s.completed[i].report)
  }

  lemma {:induction false} CalmUndisturbed(b: Batch, schedule: seq<Move>, n: nat)
    requires Calm(b) && NoUserCancel(schedule) && n <= |schedule|
    ensures Undisturbed(b, Reached(b, schedule, n))
    decreases n
  {
    if n > 0 {
      CalmUndisturbed(b, schedule, n - 1);
      ReachedSound(b, schedule, n - 1);
      assert schedule[n - 1] in schedule;
      CalmStep(b, Reached(b, schedule, n - 1), schedule[n - 1]);
    }
  }

  lemma CalmStep(b: Batch, s: Race, move: Move)
    requires Calm(b) && Undisturbed(b, s) && move.Finish?
    ensures Undisturbed(b, Advance(b, s, move))
  {
    if move.index in s.unfinished && Launches(b, move.index) {
      assert RunOneCall(b, move.index).Finished?;
    }
  }

  /**
   Schedule independence: in a calm batch without user cancellation, every order in which the
   bodies finish gives the reports, and hence messages and verdict, of sequential dispatch.
   */
  lemma ScheduleIndependence(b: Batch, schedule: seq<Move>)
    requires Calm(b) && NoUserCancel(schedule)
    ensures var s := Reached(b, schedule, |schedule|);
            && s.failure.None?
            && After(b, |b.calls|).phase.Running?
            && (s.unfinished == {} ==> FinalReports(b, s) == After(b, |b.calls|).reports)
  {
    var s := Reached(b, schedule, |schedule|);
    CalmUndisturbed(b, schedule, |schedule|);
    ReachedSound(b, schedule, |schedule|);
    CalmSequential(b, |b.calls|);
    if s.unfinished == {} {
      OverPlaces(b, s);
      var reports := After(b, |b.calls|).reports;
      SkippingExact(b, |b.calls|);
      forall k | 0 <= k < |b.calls| ensures FinalReports(b, s)[k] == reports[k] {
        FinalReportAt(b, s, k);
        UndisturbedEntry(b, s, Entry(k, FinalReports(b, s)[k]));
      }
    }
  }

  lemma UndisturbedEntry(b: Batch, s: Race, e: Entry)
    requires Undisturbed(b, s) && e in AllEntries(b, s)
    ensures e.index < |b.calls| && RunOneCall(b, e.index) == RunOne.Finished(e.report)
  {
    ImmediateExact(b, |b.calls|);
    if e in s.completed {
      var i :| 0 <= i < |s.completed| && s.completed[i] == e;
    }
  }

  lemma {:induction false} CalmSequential(b: Batch, n: nat)
    requires Calm(b) && n <= |b.calls|
    ensures After(b, n).phase.Running?
    decreases n
  {
    if n > 0 {
      CalmSequential(b, n - 1);
    }
  }

  // ----- what is recorded stays

  /** What has been recorded stays, in its place. */
  lemma {:induction false} RecordedStays(b: Batch, schedule: seq<Move>, n: nat, m: nat)
    requires n <= m <= |schedule|
    ensures Reached(b, schedule, n).completed <= Reached(b, schedule, m).completed
    decreases m
  {
    if n < m {
      RecordedStays(b, schedule, n, m - 1);
      AdvanceExtends(b, Reached(b, schedule, m - 1), schedule[m - 1]);
    }
  }

  lemma AdvanceExtends(b: Batch, s: Race, move: Move)
    ensures s.completed <= Advance(b, s, move).completed
  {
  }

  // ----- the loops of the program

  /** The start events of the launched calls among the first n, in source order. */
  function StartEvents(b: Batch, n: nat): seq<AgentEvent>
    requires n <= |b.calls|
    decreases n
  {
    if n == 0 then []
    else StartEvents(b, n - 1) + (if Launches(b, n - 1) then [ToolExecutionStart(b.calls[n - 1])] else [])
  }

  function EndEvents(reports: seq<CallReport>): (r: seq<AgentEvent>)
    ensures |r| == |reports|
  {
    if reports == [] then [] else EndEvents(reports[..|reports| - 1]) + [EndEvent(reports[|reports| - 1])]
  }

  /** Prepares every call in source order; starts are announced for the calls that will run. */
  method PrepareAll(b: Batch, sink: EventSink) returns (unfinished: set<nat>, immediate: seq<Entry>)
    modifies sink
    ensures unfinished == Start(b).unfinished
    ensures immediate == ImmediateEntries(b, |b.calls|)
    ensures sink.log == old(sink.log) + StartEvents(b, |b.calls|)
  {
    unfinished, immediate := {}, [];
    for k := 0 to |b.calls|
      invariant unfinished == set j: nat | j < k && Launches(b, j)
      invariant immediate == ImmediateEntries(b, k)
      invariant sink.log == old(sink.log) + StartEvents(b, k)
    {
      var call := b.calls[k];
      match PrepareCall(b.config, b.view, call, b.allow) {
        case Immediate(output) =>
          PreparedWithinAllowlist(b.config, b.view, call, b.allow);
          var outcome := Finalize(b.config, b.view, call, call.arguments, output, true);
          immediate := immediate + [Entry(k, Report(call, false, outcome))];
        case Ready(_) =>
          sink.Emit(ToolExecutionStart(call));
          unfinished := unfinished + {k};
      }
    }
    assert unfinished == set k: nat | k < |b.calls| && Launches(b, k);
  }

  /** Drains the bodies in the order the schedule lets them finish. */
  method Drain(b: Batch, schedule: seq<Move>, launched: set<nat>) returns (race: Race)
    requires launched == Start(b).unfinished
    ensures race == Reached(b, schedule, |schedule|)
  {
    race := Race(launched, [], false, false, None);
    for n := 0 to |schedule|
      invariant race == Reached(b, schedule, n)
    {
      ReachedSound(b, schedule, n);
      match schedule[n] {
        case UserCancel =>
          race := race.(runCancelled := true);
        case Finish(k, late) =>
          if race.failure.None? && k in race.unfinished {
            var call := b.calls[k];
            var args := PrepareCall(b.config, b.view, call, b.allow).args;
            var fired := race.batchCancelled || race.runCancelled;
            var executed := ExecutePrepared(call, if fired then late else b.bodies(k));
            if executed.Fault? && executed.error.AbortedRun? && race.batchCancelled && !race.runCancelled {
              executed := Output(ErrorOutput(SiblingAborted));
            }
            if executed.Fault? {
              race := race.(failure := Some(executed.error));
            } else {
              var outcome := Finalize(b.config, b.view, call, args, executed.output, executed.output.isError);
              var cancelled := race.batchCancelled;
              if outcome.isError && AbortsSiblings(b.config.tools, call.name) && !fired {
                cancelled := true;
              }
              race := race.(unfinished := race.unfinished - {k},
                            completed := race.completed + [Entry(k, Report(call, true, outcome))],
                            batchCancelled := cancelled);
            }
          }
      }
    }
  }

  predicate VotesTheirOutcome(entries: seq<Entry>) {
    forall i :: 0 <= i < |entries| ==> entries[i].report.vote == entries[i].report.outcome.terminate
  }

  /** Announces the ends in source order and collects messages and votes. */
  method Collect(tools: Registry, completed: seq<Entry>, sink: EventSink) returns (batch: BatchResult)
    requires VotesTheirOutcome(completed)
    modifies sink
    ensures var reports := Reports(completed);
            && sink.log == old(sink.log) + EndEvents(reports)
            && batch == Executed(Messages(reports), UnanimousStop(tools, Votes(reports)))
  {
    var messages: seq<AgentMessage>, votes: seq<Vote> := [], [];
    assert completed[..0] == [];
    for i := 0 to |completed|
      invariant sink.log == old(sink.log) + EndEvents(Reports(completed[..i]))
      invariant messages == Messages(Reports(completed[..i])) && votes == Votes(Reports(completed[..i]))
    {
      var report := completed[i].report;
      assert completed[..i + 1][..i] == completed[..i];
      EndAdded(Reports(completed[..i]), report);
      sink.Emit(EndEvent(report));
      votes := votes + [Vote(report.call.name, report.outcome.terminate)];
      messages := messages + [ToMessage(report)];
    }
    assert completed[..|completed|] == completed;
    var terminate := ComputeBatchTerminate(tools, votes);
    batch := Executed(messages, terminate);
  }

  lemma EntriesVoteTheirOutcome(b: Batch, s: Race)
    requires Sound(b, s) && Over(s)
    ensures VotesTheirOutcome(SortEntries(AllEntries(b, s)))
  {
    OverPlaces(b, s);
    var t := SortEntries(AllEntries(b, s));
    forall k | 0 <= k < |t| ensures t[k].report.vote == t[k].report.outcome.terminate {
      EntryCall(b, s, t[k]);
    }
  }

  method ExecuteParallel(b: Batch, schedule: seq<Move>, sink: EventSink) returns (batch: BatchResult)
    modifies sink
    ensures var s := Reached(b, schedule, |schedule|);
            && sink.log == old(sink.log) + StartEvents(b, |b.calls|)
                         + (if Over(s) then EndEvents(FinalReports(b, s)) else [])
            && batch == (if s.failure.Some? then Failed(s.failure.value)
                         else if s.unfinished != {} then Pending
                         else Executed(Messages(FinalReports(b, s)),
                                       UnanimousStop(b.config.tools, Votes(FinalReports(b, s)))))
  {
    var unfinished, immediate := PrepareAll(b, sink);
    var race := Drain(b, schedule, unfinished);
    if race.failure.Some? {
      return Failed(race.failure.value);
    }
    if race.unfinished != {} {
      return Pending;
    }
    ReachedSound(b, schedule, |schedule|);
    EntriesVoteTheirOutcome(b, race);
    assert race.completed + immediate == AllEntries(b, race);
    batch := Collect(b.config.tools, SortEntries(race.completed + immediate), sink);
  }

  lemma EndAdded(reports: seq<CallReport>, report: CallReport)
    ensures EndEvents(reports + [report]) == EndEvents(reports) + [EndEvent(report)]
    ensures Messages(reports + [report]) == Messages(reports) + [ToMessage(report)]
    ensures Votes(reports + [report]) == Votes(reports) + [Vote(report.call.name, report.vote)]
  {
    assert (reports + [report])[..|reports|] == reports;
  }
}

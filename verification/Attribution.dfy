/** Whose result is whose after a capped batch. */
module Attribution {
  import opened Wrappers
  import opened Transcript
  import opened Config
  import opened ToolCallCap
  import opened Dispatch
  import opened AgentLoop
  import opened RunTheorems
  import opened History
  import opened Pairing
  import opened TranscriptPairing
  import opened Composition
  import Json

  /*
   Results are handed back in the order executed calls first, then deferred ones, so two calls of
   one id whose order that reverses are named after each other.
   */

  /** The order in which a batch's calls are answered. */
  function Answered(tools: Registry, calls: seq<ToolCall>, cap: Option<nat>): seq<ToolCall> {
    Executable(tools, calls, cap) + Deferred(tools, calls, cap)
  }

  /** Where the answer to the call at position p is. */
  function ResultPlace(tools: Registry, calls: seq<ToolCall>, cap: Option<nat>, p: nat): nat
    requires p < |calls|
  {
    if IsDeferred(tools, calls, cap, p) then |Executable(tools, calls, cap)| + |Part(tools, calls, cap, true, p)|
    else |Part(tools, calls, cap, false, p)|
  }

  /** The split reverses two calls of one id: a deferred one stands before an executed one. */
  predicate Straddles(tools: Registry, calls: seq<ToolCall>, cap: Option<nat>) {
    exists i: nat, p: nat :: i < p < |calls| && calls[i].id == calls[p].id && IsDeferred(tools, calls, cap, i)
      && !IsDeferred(tools, calls, cap, p)
  }

  lemma {:induction false} PartPrefix(tools: Registry, calls: seq<ToolCall>, cap: Option<nat>, deferred: bool, n: nat,
                                      m: nat)
    requires n <= m <= |calls|
    ensures |Part(tools, calls, cap, deferred, n)| <= |Part(tools, calls, cap, deferred, m)|
    ensures Part(tools, calls, cap, deferred, m)[..|Part(tools, calls, cap, deferred, n)|]
            == Part(tools, calls, cap, deferred, n)
    decreases m
  {
    if n < m {
      PartPrefix(tools, calls, cap, deferred, n, m - 1);
      var shorter, longer, k := Part(tools, calls, cap, deferred, m - 1), Part(tools, calls, cap, deferred, m),
        |Part(tools, calls, cap, deferred, n)|;
      hide IsDeferred;
      assert longer[..k] == shorter[..k];
    }
  }

  lemma PartNext(tools: Registry, calls: seq<ToolCall>, cap: Option<nat>, p: nat)
    requires p < |calls|
    ensures var deferred := IsDeferred(tools, calls, cap, p);
            Part(tools, calls, cap, deferred, p + 1) == Part(tools, calls, cap, deferred, p) + [calls[p]]
  {
  }

  lemma PrefixParts<T>(a: seq<T>, b: seq<T>, c: seq<T>, x: T)
    requires |a| + 1 <= |b| && b[..|a| + 1] == a + [x]
    ensures (b + c)[..|a|] == a && |a| < |b + c| && (b + c)[|a|] == x
    ensures (c + b)[..|c| + |a|] == c + a && |c| + |a| < |c + b| && (c + b)[|c| + |a|] == x
  {
    assert b[..|a| + 1][..|a|] == b[..|a|] && (a + [x])[..|a|] == a;
    assert b[|a|] == b[..|a| + 1][|a|];
  }

  /** The answer of a call is at its place, and behind the answers of these calls. */
  lemma PlaceOf(tools: Registry, calls: seq<ToolCall>, cap: Option<nat>, p: nat)
    requires p < |calls|
    ensures var place, answered := ResultPlace(tools, calls, cap, p), Answered(tools, calls, cap);
            && place < |answered| && answered[place] == calls[p]
            && answered[..place]
              == (if IsDeferred(tools, calls, cap, p) then Executable(tools, calls, cap)
                  + Part(tools, calls, cap, true, p)
                                     else Part(tools, calls, cap, false, p))
  {
    hide *;
    var deferred := IsDeferred(tools, calls, cap, p);
    PlaceIs(tools, calls, cap, p);
    PartInWhole(tools, calls, cap, p);
    PrefixParts(Part(tools, calls, cap, deferred, p), Part(tools, calls, cap, deferred, |calls|),
                Part(tools, calls, cap, !deferred, |calls|), calls[p]);
  }

  lemma PlaceIs(tools: Registry, calls: seq<ToolCall>, cap: Option<nat>, p: nat)
    requires p < |calls|
    ensures Executable(tools, calls, cap) == Part(tools, calls, cap, false, |calls|)
    ensures Answered(tools, calls, cap)
            == Part(tools, calls, cap, false, |calls|) + Part(tools, calls, cap, true, |calls|)
    ensures ResultPlace(tools, calls, cap, p) == if IsDeferred(tools, calls, cap, p)
            then |Part(tools, calls, cap, false, |calls|)| + |Part(tools, calls, cap, true, p)|
                                                 else |Part(tools, calls, cap, false, p)|
  {
  }

  lemma PartInWhole(tools: Registry, calls: seq<ToolCall>, cap: Option<nat>, p: nat)
    requires p < |calls|
    ensures var deferred := IsDeferred(tools, calls, cap, p);
            var before, whole := Part(tools, calls, cap, deferred, p), Part(tools, calls, cap, deferred, |calls|);
            |before| + 1 <= |whole| && whole[..|before| + 1] == before + [calls[p]]
  {
    hide *;
    PartNext(tools, calls, cap, p);
    PartPrefix(tools, calls, cap, IsDeferred(tools, calls, cap, p), p + 1, |calls|);
  }

  lemma {:induction false} NoneOfId(tools: Registry, calls: seq<ToolCall>, cap: Option<nat>, deferred: bool, lo: nat,
                                    hi: nat, id: string)
    requires lo <= hi <= |calls|
    ensures CountId(Part(tools, calls, cap, deferred, lo), id) <= CountId(Part(tools, calls, cap, deferred, hi), id)
    ensures CountId(Part(tools, calls, cap, deferred, lo), id) == CountId(Part(tools, calls, cap, deferred, hi), id)
            <==> forall i: nat :: lo <= i < hi && IsDeferred(tools, calls, cap, i) == deferred ==> calls[i].id != id
    decreases hi
  {
    if lo < hi {
      NoneOfId(tools, calls, cap, deferred, lo, hi - 1, id);
      var before, last := Part(tools, calls, cap, deferred, hi - 1), calls[hi - 1];
      CountIdAppend(before, [last], id);
      assert CountId([last], id) == (if last.id == id then 1 else 0) by { assert [last][1..] == []; }
      var same := IsDeferred(tools, calls, cap, hi - 1) == deferred;
      assert CountId(Part(tools, calls, cap, deferred, hi), id)
        == CountId(before, id) + (if same && last.id == id then 1 else 0);
      hide Part, CountId, IsDeferred;
      if same && last.id == id {
        assert !(forall i: nat :: lo <= i < hi && IsDeferred(tools, calls, cap, i) == deferred ==>
                   calls[i].id != id) by {
          assert IsDeferred(tools, calls, cap, hi - 1) == deferred;
        }
      }
    }
  }

  /** As many answers as calls of its id come before the call at p. */
  predicate InStep(tools: Registry, calls: seq<ToolCall>, cap: Option<nat>, p: nat)
    requires p < |calls|
  {
    ResultPlace(tools, calls, cap, p) <= |Answered(tools, calls, cap)|
    && CountId(Answered(tools, calls, cap)[..ResultPlace(tools, calls, cap, p)], calls[p].id)
      == CountId(calls[..p], calls[p].id)
  }

  /**
   An executed call is in step iff no deferred call of its id precedes it; a deferred one iff no
   executed call of its id follows.
   */
  lemma InStepExact(tools: Registry, calls: seq<ToolCall>, cap: Option<nat>, p: nat)
    requires p < |calls|
    ensures InStep(tools, calls, cap, p) <==>
              if IsDeferred(tools, calls, cap, p) then
                forall i: nat :: p <= i < |calls| && IsDeferred(tools, calls, cap, i) == false ==>
                  calls[i].id != calls[p].id
              else forall i: nat :: 0 <= i < p && IsDeferred(tools, calls, cap, i) == true ==>
                calls[i].id != calls[p].id
  {
    var id := calls[p].id;
    PlaceOf(tools, calls, cap, p);
    SplitCountsIds(tools, calls, cap, p, id);
    assert CountId([], id) == 0;
    assert Part(tools, calls, cap, true, 0) == [];
    NoneOfId(tools, calls, cap, true, 0, p, id);
    NoneOfId(tools, calls, cap, false, p, |calls|, id);
    CountIdAppend(Executable(tools, calls, cap), Part(tools, calls, cap, true, p), id);
    hide Part, CountId, IsDeferred, ResultPlace, Answered;
  }

  lemma AllInStepExact(tools: Registry, calls: seq<ToolCall>, cap: Option<nat>)
    ensures (forall p: nat :: p < |calls| ==> InStep(tools, calls, cap, p)) <==> !Straddles(tools, calls, cap)
  {
    hide InStep, IsDeferred;
    if !Straddles(tools, calls, cap) {
      forall p: nat | p < |calls| ensures InStep(tools, calls, cap, p) {
        InStepExact(tools, calls, cap, p);
        if IsDeferred(tools, calls, cap, p) {
          forall i: nat | p <= i < |calls| && IsDeferred(tools, calls, cap, i) == false
            ensures calls[i].id != calls[p].id
          {
            assert i != p;
          }
        }
      }
    } else {
      var i: nat, p: nat :| i < p < |calls| && calls[i].id == calls[p].id && IsDeferred(tools, calls, cap, i)
        && !IsDeferred(tools, calls, cap, p);
      InStepExact(tools, calls, cap, p);
      assert !InStep(tools, calls, cap, p);
    }
  }

  // ----- in a transcript

  /** The turn's assistant message is at a, with its results right behind it. */
  predicate TurnAt(messages: seq<AgentMessage>, a: nat, t: Turn) {
    && a + 1 + |Results(t)| <= |messages| && messages[a] == t.assistant
    && messages[a + 1..a + 1 + |Results(t)|] == Results(t)
  }

  /** A turn's results answer its calls, wherever in a transcript the turn stands. */
  lemma TurnIsAnswered(config: LoopConfig, messages: seq<AgentMessage>, a: nat, t: Turn)
    requires TurnShape(config, t) && KeepsCallIds(config) && t.assistant.Assistant? && ToolCalls(t.assistant) != []
             && TurnAt(messages, a, t)
    ensures AnsweredRun(messages, a, a + 1 + |Results(t)|)
  {
    var b := a + 1 + |Results(t)|;
    hide TurnShape, Results, CountIn, CountResults, CallIds, IdsOf, CountAnswers, CountId, KeepsCallIds, ToolCalls;
    ResultsOfTurn(config, t);
    assert ResultRun(messages, a, b) by {
      forall j | a < j < b ensures messages[j].ToolResult? {
        assert messages[j] == messages[a + 1..b][j - a - 1];
      }
    }
    hide ResultRun, TurnAt;
    forall id ensures CountIn(IdsOf(messages[a]), |IdsOf(messages[a])|, id) == CountResults(messages, a + 1, b, id) {
      TurnAnswersAll(config, t, id);
      AnswersAreResults(messages, a + 1, b, id);
      CallCounts(t.assistant, id);
    }
  }

  lemma CallCounts(message: AgentMessage, id: string)
    ensures CountIn(IdsOf(message), |IdsOf(message)|, id) == CountId(ToolCalls(message), id)
  {
    CountsAgree(ToolCalls(message), |ToolCalls(message)|, id);
    assert ToolCalls(message)[..|ToolCalls(message)|] == ToolCalls(message);
  }

  lemma {:induction false} ReportsTake(reports: seq<CallReport>, k: nat)
    requires k <= |reports|
    ensures Messages(reports)[..k] == Messages(reports[..k]) && Calls(reports)[..k] == Calls(reports[..k])
    decreases |reports|
  {
    if k < |reports| {
      var front := reports[..|reports| - 1];
      ReportsTake(front, k);
      assert front[..k] == reports[..k];
      assert Messages(reports)[..k] == Messages(front)[..k] && Calls(reports)[..k] == Calls(front)[..k];
    } else {
      assert reports[..k] == reports && Messages(reports)[..k] == Messages(reports)
        && Calls(reports)[..k] == Calls(reports);
    }
  }

  /** How many results of the id come before place k of a turn. */
  lemma ResultsBefore(messages: seq<AgentMessage>, a: nat, t: Turn, k: nat, id: string)
    requires TurnAt(messages, a, t) && !t.reaction.Deliver? && k <= |t.reports|
    ensures CountResults(messages, a + 1, a + 1 + k, id) == CountId(Calls(t.reports)[..k], id)
  {
    AnswersAreResults(messages, a + 1, a + 1 + k, id);
    assert messages[a + 1..a + 1 + k] == messages[a + 1..a + 1 + |Results(t)|][..k];
    ReportsTake(t.reports, k);
    ReportsAnswer(t.reports[..k], id);
  }

  function NormalCalls(config: LoopConfig, t: Turn): (r: seq<ToolCall>)
    ensures |r| == |ToolCalls(t.assistant)|
  {
    NormalizeCalls(config, ToolCalls(t.assistant))
  }

  /** The place of the answer to call p of a turn. */
  function PlaceIn(config: LoopConfig, t: Turn, p: nat): nat
    requires p < |ToolCalls(t.assistant)|
  {
    ResultPlace(config.tools, NormalCalls(config, t), config.maxToolCallsPerTurn, p)
  }

  lemma SameIdAt(config: LoopConfig, t: Turn, p: nat)
    requires KeepsCallIds(config) && p < |ToolCalls(t.assistant)|
    ensures NormalCalls(config, t)[p].id == ToolCalls(t.assistant)[p].id == IdsOf(t.assistant)[p]
    ensures CountId(NormalCalls(config, t)[..p], NormalCalls(config, t)[p].id)
            == CountIn(IdsOf(t.assistant), p, IdsOf(t.assistant)[p])
  {
    var calls, norm := ToolCalls(t.assistant), NormalCalls(config, t);
    forall k | 0 <= k < |calls| ensures norm[k].id == calls[k].id {}
    SameIdsSameCount(norm[..p], calls[..p], norm[p].id);
    CountsAgree(calls, p, norm[p].id);
  }

  /** The result a call got is named after it exactly when the call is in step. */
  lemma AttributedExact(config: LoopConfig, messages: seq<AgentMessage>, a: nat, t: Turn, p: nat)
    requires TurnShape(config, t) && KeepsCallIds(config) && t.assistant.Assistant? && TurnAt(messages, a, t)
    requires p < |ToolCalls(t.assistant)|
    ensures PlaceIn(config, t, p) < |t.reports| && t.reports[PlaceIn(config, t, p)].call == NormalCalls(config, t)[p]
    ensures SharesWire(messages, a, a + 1 + PlaceIn(config, t, p), p) <==>
            InStep(config.tools, NormalCalls(config, t), config.maxToolCallsPerTurn, p)
  {
    hide *;
    CallsOfTurn(config, t);
    PlaceFacts(config, messages, a, t, p);
    TurnIsAnswered(config, messages, a, t);
    PairAt(messages, a, a + 1 + |Results(t)|, a + 1 + PlaceIn(config, t, p), p);
    MatchIsInStep(config, messages, a, t, p);
  }

  lemma CallsOfTurn(config: LoopConfig, t: Turn)
    requires TurnShape(config, t) && ToolCalls(t.assistant) != []
    ensures Calls(t.reports) == Answered(config.tools, NormalCalls(config, t), config.maxToolCallsPerTurn)
    ensures !t.reaction.Deliver? && |Results(t)| == |t.reports|
  {
  }

  lemma PlaceFacts(config: LoopConfig, messages: seq<AgentMessage>, a: nat, t: Turn, p: nat)
    requires TurnShape(config, t) && KeepsCallIds(config) && TurnAt(messages, a, t)
    requires p < |ToolCalls(t.assistant)|
    ensures PlaceIn(config, t, p) < |t.reports| == |Results(t)|
            && t.reports[PlaceIn(config, t, p)].call == NormalCalls(config, t)[p]
    ensures a + 1 + |Results(t)| <= |messages| && messages[a] == t.assistant
            && |IdsOf(t.assistant)| == |ToolCalls(t.assistant)|
    ensures var result := messages[a + 1 + PlaceIn(config, t, p)];
            result.ToolResult? && result.toolCallId == IdsOf(t.assistant)[p]
  {
    hide TurnShape, KeepsCallIds, CountIn, CountId, Answered, ResultPlace, IdsOf, NormalCalls, IsDeferred, Part,
         Messages, Calls, ToolCalls;
    CallsOfTurn(config, t);
    IdsPerCall(t);
    PlaceOf(config.tools, NormalCalls(config, t), config.maxToolCallsPerTurn, p);
    var place := PlaceIn(config, t, p);
    ReportMessage(t.reports, place);
    SameIdAt(config, t, p);
    hide PlaceIn;
    assert messages[a + 1 + place] == messages[a + 1..a + 1 + |Results(t)|][place];
  }

  lemma IdsPerCall(t: Turn)
    ensures |IdsOf(t.assistant)| == |ToolCalls(t.assistant)|
  {
  }

  lemma MatchIsInStep(config: LoopConfig, messages: seq<AgentMessage>, a: nat, t: Turn, p: nat)
    requires TurnShape(config, t) && KeepsCallIds(config) && TurnAt(messages, a, t) && p < |ToolCalls(t.assistant)|
    requires PlaceIn(config, t, p) < |t.reports| && a + 1 + |t.reports| <= |messages|
    requires a + 1 + PlaceIn(config, t, p) < |messages| && p < |IdsOf(messages[a])|
    ensures Matches(messages, a, a + 1 + PlaceIn(config, t, p), p) <==>
            InStep(config.tools, NormalCalls(config, t), config.maxToolCallsPerTurn, p)
  {
    hide TurnShape, KeepsCallIds, CountIn, CountId, CountResults, Answered, ResultPlace, Results, IdsOf, NormalCalls,
         TurnAt, Calls, ToolCalls;
    CallsOfTurn(config, t);
    PlaceFacts(config, messages, a, t, p);
    ResultsBefore(messages, a, t, PlaceIn(config, t, p), NormalCalls(config, t)[p].id);
    SameIdAt(config, t, p);
    PlaceOf(config.tools, NormalCalls(config, t), config.maxToolCallsPerTurn, p);
    hide IsDeferred, Part;
  }

  /**
   After normalization every call of a turn shares its wire id with its own answer if and only
   if the cap split put no deferred call before an executed call of the same id.
   */
  lemma AttributionExact(config: LoopConfig, messages: seq<AgentMessage>, a: nat, t: Turn)
    requires TurnShape(config, t) && KeepsCallIds(config) && t.assistant.Assistant? && TurnAt(messages, a, t)
    ensures (forall p: nat :: p < |ToolCalls(t.assistant)| ==>
               SharesWire(messages, a, a + 1 + PlaceIn(config, t, p), p))
            <==> !Straddles(config.tools, NormalCalls(config, t), config.maxToolCallsPerTurn)
  {
    var norm := NormalCalls(config, t);
    hide *;
    AllInStepExact(config.tools, norm, config.maxToolCallsPerTurn);
    forall p: nat | p < |norm|
      ensures SharesWire(messages, a, a + 1 + PlaceIn(config, t, p), p) <==>
              InStep(config.tools, norm, config.maxToolCallsPerTurn, p)
    {
      AttributedExact(config, messages, a, t, p);
    }
  }

  // ----- in a run

  lemma TurnAtIn(before: seq<AgentMessage>, t: Turn, more: seq<AgentMessage>)
    ensures TurnAt(before + TurnMessages(t) + more, |before| + |t.injected|, t)
  {
    var nudge := if t.reaction.Nudge? then [t.reaction.message] else [];
    assert TurnMessages(t) == t.injected + [t.assistant] + Results(t) + nudge;
    hide TurnMessages, Results;
    Located(before, t.injected, t.assistant, Results(t), nudge, more);
  }

  lemma Located(before: seq<AgentMessage>, injected: seq<AgentMessage>, x: AgentMessage, results: seq<AgentMessage>,
                nudge: seq<AgentMessage>, more: seq<AgentMessage>)
    ensures var all, a := before + (injected + [x] + results + nudge) + more, |before| + |injected|;
            a + 1 + |results| <= |all| && all[a] == x && all[a + 1..a + 1 + |results|] == results
  {
    var all := (before + injected + [x]) + results + (nudge + more);
    assert before + (injected + [x] + results + nudge) + more == all;
  }

  /** The messages of the first so many turns are the beginning of those of all. */
  lemma {:induction false} MessagesPrefix(turns: seq<Turn>, n: nat, m: nat) returns (rest: seq<AgentMessage>)
    requires n <= m <= |turns|
    ensures AllMessages(turns[..m]) == AllMessages(turns[..n]) + rest
    decreases m
  {
    if n == m {
      rest := [];
      NothingAdded(AllMessages(turns[..n]));
    } else {
      rest := MessagesPrefix(turns, n, m - 1);
      TakeSnoc(turns, m);
      AllSnoc(turns[..m - 1], turns[m - 1]);
      hide AllMessages, AllEvents, TurnMessages;
      Associate(AllMessages(turns[..n]), rest, TurnMessages(turns[m - 1]));
      rest := rest + TurnMessages(turns[m - 1]);
    }
  }

  /** Where the assistant message of turn k stands. */
  function Place(start: LoopState, turns: seq<Turn>, k: nat): nat
    requires k < |turns|
  {
    |start.messages| + |AllMessages(turns[..k])| + |turns[k].injected|
  }

  lemma RecordedTurnAt(start: LoopState, s: LoopState, k: nat)
    requires k < |s.turns| && s.messages == start.messages + AllMessages(s.turns)
    ensures TurnAt(s.messages + s.pending, Place(start, s.turns, k), s.turns[k])
  {
    hide *;
    var rest := MessagesAround(s.turns, k);
    PlaceIsAt(start, s.turns, k);
    TurnAtIn(start.messages + AllMessages(s.turns[..k]), s.turns[k], rest + s.pending);
    PutTogether(start.messages, AllMessages(s.turns[..k]), TurnMessages(s.turns[k]), rest, s.pending);
  }

  lemma MessagesAround(turns: seq<Turn>, k: nat) returns (rest: seq<AgentMessage>)
    requires k < |turns|
    ensures AllMessages(turns) == (AllMessages(turns[..k]) + TurnMessages(turns[k])) + rest
  {
    hide *;
    rest := MessagesPrefix(turns, k + 1, |turns|);
    TakeAll(turns);
    TakeSnoc(turns, k + 1);
    AllSnoc(turns[..k], turns[k]);
  }

  lemma TakeAll<T>(s: seq<T>)
    ensures s[..|s|] == s
  {
  }

  lemma PlaceIsAt(start: LoopState, turns: seq<Turn>, k: nat)
    requires k < |turns|
    ensures Place(start, turns, k) == |start.messages + AllMessages(turns[..k])| + |turns[k].injected|
  {
    hide AllMessages;
  }

  lemma PutTogether(a: seq<AgentMessage>, b: seq<AgentMessage>, c: seq<AgentMessage>, d: seq<AgentMessage>,
                    e: seq<AgentMessage>)
    ensures (a + ((b + c) + d)) + e == (a + b) + c + (d + e)
  {
  }

  /**
   Attribution in runs: in any unshrunk history a run holds or is about to send, every recorded
   turn stands at its place, and after normalization each of its calls shares its wire id with
   its own result if and only if the cap split of that turn reversed no two calls of one id.
   */
  lemma RunAttribution(config: LoopConfig, start: LoopState, script: seq<TurnScript>, n: nat, k: nat)
    requires Fresh(start) && PlainAll(start.pending) && KeepsCallIds(config) && CourteousAll(script) && n <= |script|
    requires RunTo(config, start, script, n).phase.Going? || RunTo(config, start, script, n).phase.Ended?
    requires Unshrunk(RunTo(config, start, script, n).turns) && k < |RunTo(config, start, script, n).turns|
    ensures var s := RunTo(config, start, script, n);
            var t, a, messages := s.turns[k], Place(start, s.turns, k), s.messages + s.pending;
            && TurnAt(messages, a, t)
            && ((forall p: nat :: p < |ToolCalls(t.assistant)| ==>
                   SharesWire(messages, a, a + 1 + PlaceIn(config, t, p), p))
                <==> !Straddles(config.tools, NormalCalls(config, t), config.maxToolCallsPerTurn))
  {
    hide *;
    RunLaws(config, start, script, n);
    RunCourteous(config, start, script, n);
    var s := RunTo(config, start, script, n);
    RecordedFacts(config, start, s, k);
    RecordedTurnAt(start, s, k);
    AttributionExact(config, s.messages + s.pending, Place(start, s.turns, k), s.turns[k]);
  }

  lemma RecordedFacts(config: LoopConfig, start: LoopState, s: LoopState, k: nat)
    requires LoopInv(config, start, s) && CourteousState(s) && Unshrunk(s.turns) && (s.phase.Going? || s.phase.Ended?)
             && k < |s.turns|
    ensures s.messages == start.messages + AllMessages(s.turns)
    ensures TurnShape(config, s.turns[k]) && s.turns[k].assistant.Assistant?
  {
    LiveUnshrunk(start.messages, s.turns);
    hide TurnShape, PlainAll, AllMessages, AllEvents, LiveAfter, Continues, Final, Requested, Injection;
    assert Proper(config, start, s.turns, k);
    assert CourteousTurn(s.turns[k]);
  }

  /** Distinct ids, or no cap, never straddle. */
  lemma NoStraddle(tools: Registry, calls: seq<ToolCall>, cap: Option<nat>)
    ensures cap.None? || Distinct(CallIds(calls)) ==> !Straddles(tools, calls, cap)
  {
    if Straddles(tools, calls, cap) {
      var i: nat, p: nat :| i < p < |calls| && calls[i].id == calls[p].id && IsDeferred(tools, calls, cap, i)
        && !IsDeferred(tools, calls, cap, p);
      assert CallIds(calls)[i] == CallIds(calls)[p];
    }
  }

  function PlainTool(counted: bool): Tool {
    Tool(counted, false, false, false, false, None, (v: Json.Value) => v, (v: Json.Value) => None)
  }

  const SWAP_TOOLS: Registry := map["counted" := PlainTool(true), "free" := PlainTool(false)]

  const SWAP_CALLS: seq<ToolCall> :=
    [ToolCall("x", "counted", Json.Null), ToolCall("dup", "counted", Json.Null), ToolCall("dup", "free", Json.Null)]

  lemma SwapDeferral()
    ensures !IsDeferred(SWAP_TOOLS, SWAP_CALLS, Some(1), 0)
    ensures IsDeferred(SWAP_TOOLS, SWAP_CALLS, Some(1), 1)
    ensures !IsDeferred(SWAP_TOOLS, SWAP_CALLS, Some(1), 2)
  {
    assert CountLimited(SWAP_TOOLS, SWAP_CALLS, 0) == 0 && CountLimited(SWAP_TOOLS, SWAP_CALLS, 1) == 1;
  }

  lemma PartStep(tools: Registry, calls: seq<ToolCall>, cap: Option<nat>, deferred: bool, n: nat)
    requires n < |calls|
    ensures Part(tools, calls, cap, deferred, 0) == []
    ensures Part(tools, calls, cap, deferred, n + 1)
         == Part(tools, calls, cap, deferred, n)
           + (if IsDeferred(tools, calls, cap, n) == deferred then [calls[n]] else [])
  {
    NothingAdded(Part(tools, calls, cap, deferred, n));
  }

  function SwapAnswer(call: ToolCall): AgentMessage {
    ToolResult(call.id, call.name, [], false, NoDetails)
  }

  /** The turn in a transcript: the calls in source order, the results in the order they are handed back. */
  function SwapTranscript(): seq<AgentMessage> {
    [Assistant([Call(SWAP_CALLS[0]), Call(SWAP_CALLS[1]), Call(SWAP_CALLS[2])], ToolUse),
     SwapAnswer(SWAP_CALLS[0]), SwapAnswer(SWAP_CALLS[2]), SwapAnswer(SWAP_CALLS[1])]
  }

  lemma SwapIds()
    ensures IdsOf(SwapTranscript()[0]) == ["x", "dup", "dup"]
  {
    var blocks := SwapTranscript()[0].blocks;
    assert BlockCalls(blocks[3..]) == [];
    assert BlockCalls(blocks[2..]) == [SWAP_CALLS[2]] by { assert blocks[2..][1..] == blocks[3..]; }
    assert BlockCalls(blocks[1..]) == [SWAP_CALLS[1], SWAP_CALLS[2]] by { assert blocks[1..][1..] == blocks[2..]; }
    assert BlockCalls(blocks) == SWAP_CALLS;
  }

  lemma SwapAnswered(id: string)
    ensures CountIn(["x", "dup", "dup"], 3, id) == CountResults(SwapTranscript(), 1, 4, id)
  {
    var m, ids := SwapTranscript(), ["x", "dup", "dup"];
    assert CountIn(ids, 1, id) == if id == "x" then 1 else 0;
    assert CountResults(m, 1, 2, id) == if id == "x" then 1 else 0;
    assert CountIn(ids, 2, id) == CountResults(m, 1, 3, id);
  }

  lemma SwapCounts()
    ensures CountResults(SwapTranscript(), 1, 3, "dup") == 1 && CountResults(SwapTranscript(), 1, 2, "dup") == 0
    ensures CountIn(["x", "dup", "dup"], 1, "dup") == 0
  {
    assert CountResults(SwapTranscript(), 1, 2, "dup") == 0;
  }

  /**
   A batch in which the answers of two calls of one id are swapped: under a cap of one the second
   call is deferred and the third runs, and after normalization the second call shares its wire
   id with the third one's result and not with its own.
   */
  lemma CapCanSwapAnswers()
    ensures Straddles(SWAP_TOOLS, SWAP_CALLS, Some(1))
    ensures Answered(SWAP_TOOLS, SWAP_CALLS, Some(1)) == [SWAP_CALLS[0], SWAP_CALLS[2], SWAP_CALLS[1]]
    ensures SharesWire(SwapTranscript(), 0, 2, 1) && SwapTranscript()[2] == SwapAnswer(SWAP_CALLS[2])
    ensures !SharesWire(SwapTranscript(), 0, 3, 1) && SwapTranscript()[3] == SwapAnswer(SWAP_CALLS[1])
  {
    SwapOrder();
    SwapWires();
    hide *;
  }

  lemma SwapWires()
    ensures SharesWire(SwapTranscript(), 0, 2, 1) && SwapTranscript()[2] == SwapAnswer(SWAP_CALLS[2])
    ensures !SharesWire(SwapTranscript(), 0, 3, 1) && SwapTranscript()[3] == SwapAnswer(SWAP_CALLS[1])
  {
    var m := SwapTranscript();
    SwapIds();
    SwapCounts();
    assert ResultRun(m, 0, 4);
    assert m[2].toolCallId == "dup" && m[3].toolCallId == "dup";
    hide IdsOf, CountIn, CountResults, SharesWire;
    forall id ensures CountIn(IdsOf(m[0]), |IdsOf(m[0])|, id) == CountResults(m, 1, 4, id) {
      SwapAnswered(id);
    }
    PairAt(m, 0, 4, 2, 1);
    PairAt(m, 0, 4, 3, 1);
  }

  lemma SwapOrder()
    ensures Straddles(SWAP_TOOLS, SWAP_CALLS, Some(1))
    ensures Answered(SWAP_TOOLS, SWAP_CALLS, Some(1)) == [SWAP_CALLS[0], SWAP_CALLS[2], SWAP_CALLS[1]]
  {
    SwapDeferral();
    assert SWAP_CALLS[1].id == SWAP_CALLS[2].id && |SWAP_CALLS| == 3;
    hide IsDeferred, Part;
    PartStep(SWAP_TOOLS, SWAP_CALLS, Some(1), false, 0);
    PartStep(SWAP_TOOLS, SWAP_CALLS, Some(1), false, 1);
    PartStep(SWAP_TOOLS, SWAP_CALLS, Some(1), false, 2);
    PartStep(SWAP_TOOLS, SWAP_CALLS, Some(1), true, 0);
    PartStep(SWAP_TOOLS, SWAP_CALLS, Some(1), true, 1);
    PartStep(SWAP_TOOLS, SWAP_CALLS, Some(1), true, 2);
  }
}

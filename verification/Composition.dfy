/** The loop and the id normalizer together. */
module Composition {
  import opened Wrappers
  import opened Transcript
  import opened Config
  import opened ToolCallCap
  import opened Dispatch
  import opened BatchExecution
  import opened Streaming
  import opened AgentLoop
  import opened RunTheorems
  import opened Naming
  import opened History
  import opened Pairing
  import opened TranscriptPairing

  /*
   Every history the loop can send, normalized, has globally unique call ids, each turn's calls in
   bijection with the results right behind it.
   */

  // ----- what the environment may do

  predicate AnswersAssistants(attempts: seq<Attempt>) {
    forall k :: 0 <= k < |attempts| ==> attempts[k].answer.Done? ==> attempts[k].answer.message.Assistant?
  }

  /** Message sources hand out their own kind of message, and the provider answers with assistant messages. */
  predicate Courteous(t: TurnScript) {
    PlainAll(t.steering) && PlainAll(t.followUp) && AnswersAssistants(t.attempts)
  }

  predicate CourteousAll(script: seq<TurnScript>) {
    forall k :: 0 <= k < |script| ==> Courteous(script[k])
  }

  predicate CourteousTurn(t: Turn) {
    t.assistant.Assistant? && PlainAll(t.injected)
  }

  predicate CourteousState(s: LoopState) {
    PlainAll(s.pending) && forall k :: 0 <= k < |s.turns| ==> CourteousTurn(s.turns[k])
  }

  lemma {:induction false} LadderAccepts(config: LoopConfig, context: seq<AgentMessage>, iteration: nat,
                                         script: seq<Attempt>, n: nat)
    requires n <= |script| && AnswersAssistants(script)
    ensures var s := Ladder(config, context, iteration, script, n); s.outcome.Accepted? ==> s.outcome.message.Assistant?
    decreases n
  {
    hide AttemptHistory, Sent, Allowed, Request, SaturatingDouble;
    if n > 0 {
      LadderAccepts(config, context, iteration, script, n - 1);
      assert script[n - 1].answer.Done? ==> script[n - 1].answer.message.Assistant?;
    }
  }

  lemma {:induction false} RecoverAccepts(config: LoopConfig, messages: seq<AgentMessage>, iteration: nat,
                                          script: seq<Attempt>, hookCalls: nat)
    requires AnswersAssistants(script)
    ensures var run := Recover(config, messages, iteration, script, hookCalls);
            run.outcome.Accepted? ==> run.outcome.message.Assistant?
    decreases config.estimate(messages)
  {
    var ladder := Whole(config, messages, iteration, script);
    LadderAccepts(config, messages, iteration, script, |script|);
    WholeIs(config, messages, iteration, script);
    RecoverStep(config, messages, iteration, script, hookCalls);
    hide Whole, Ladder, Recover;
    if Overflowed(ladder.outcome) && config.overflowRecovery.Some? && !ladder.outcome.cancelled {
      var after := config.overflowRecovery.value(hookCalls, messages);
      if config.estimate(after) < config.estimate(messages) {
        RecoverAccepts(config, after, iteration, script[ladder.consumed..], hookCalls + 1);
      }
    }
  }

  lemma ActCourteous(config: LoopConfig, injected: seq<AgentMessage>, run: StreamRun, u: LoopState,
                     assistant: AgentMessage, allow: Option<set<string>>, t: TurnScript)
    requires assistant.Assistant? && PlainAll(injected) && Courteous(t) && CourteousState(u)
    ensures CourteousState(Act(config, injected, run, u, assistant, allow, t))
  {
    hide RunBatch, ReactToPlainText, RunsSequentially, PlainAll, AnswersAssistants, Results;
    assert PlainAll([]) by { NothingPlain(); }
  }

  lemma NothingPlain()
    ensures PlainAll([])
  {
  }

  lemma TakeTurnCourteous(config: LoopConfig, s: LoopState, t: TurnScript)
    requires CourteousState(s) && Courteous(t)
    ensures CourteousState(TakeTurn(config, s, t))
  {
    if !t.cancelled {
      var run := Recover(config, s.messages + s.pending, |s.turns|, t.attempts, s.hookCalls);
      var u := Streamed(config, s, t);
      RecoverAccepts(config, s.messages + s.pending, |s.turns|, t.attempts, s.hookCalls);
      assert u.turns == s.turns && u.pending == s.pending;
      hide Recover, Act, Streamed, PlainAll;
      if run.outcome.Accepted? {
        ActCourteous(config, s.pending, run, u, run.outcome.message, run.outcome.allow, t);
      }
    }
  }

  lemma SettleCourteous(s: LoopState, t: TurnScript)
    requires CourteousState(s) && Courteous(t)
    ensures CourteousState(Settle(s, t))
  {
    hide PlainAll;
    var w := Settle(s, t);
    forall k | 0 <= k < |w.turns| ensures CourteousTurn(w.turns[k]) {
      assert CourteousTurn(s.turns[k]);
    }
  }

  lemma {:induction false} RunCourteous(config: LoopConfig, start: LoopState, script: seq<TurnScript>, n: nat)
    requires Fresh(start) && PlainAll(start.pending) && CourteousAll(script) && n <= |script|
    ensures CourteousState(RunTo(config, start, script, n))
    decreases n
  {
    hide TakeTurn, Settle, PlainAll, Courteous;
    if n > 0 {
      RunCourteous(config, start, script, n - 1);
      var s := RunTo(config, start, script, n - 1);
      hide CourteousState;
      assert Courteous(script[n - 1]);
      TakeTurnCourteous(config, s, script[n - 1]);
      SettleCourteous(TakeTurn(config, s, script[n - 1]), script[n - 1]);
    }
  }

  // ----- the histories of a run

  lemma {:induction false} TurnsPaired(config: LoopConfig, messages: seq<AgentMessage>, turns: seq<Turn>, n: nat)
    requires WellPaired(messages) && KeepsCallIds(config) && n <= |turns|
    requires forall k :: 0 <= k < |turns| ==> TurnShape(config, turns[k]) && CourteousTurn(turns[k])
    ensures WellPaired(messages + AllMessages(turns[..n]))
    decreases n
  {
    hide *;
    if n == 0 {
      NoTurns(messages, turns);
    } else {
      TurnsPaired(config, messages, turns, n - 1);
      TurnAppended(config, messages, turns[..n - 1], turns[n - 1]);
      TakeSnoc(turns, n);
    }
  }

  lemma NoTurns(messages: seq<AgentMessage>, turns: seq<Turn>)
    ensures messages + AllMessages(turns[..0]) == messages
  {
  }

  lemma TurnAppended(config: LoopConfig, messages: seq<AgentMessage>, turns: seq<Turn>, t: Turn)
    requires WellPaired(messages + AllMessages(turns)) && KeepsCallIds(config)
    requires TurnShape(config, t) && CourteousTurn(t)
    ensures WellPaired(messages + AllMessages(turns + [t]))
  {
    hide *;
    CourteousParts(t);
    TurnPaired(config, t);
    AllSnoc(turns, t);
    AppendKeeps(messages + AllMessages(turns), TurnMessages(t));
    Associate(messages, AllMessages(turns), TurnMessages(t));
  }

  lemma CourteousParts(t: Turn)
    requires CourteousTurn(t)
    ensures t.assistant.Assistant? && PlainAll(t.injected)
  {
  }

  /**
   Every history the loop can hold or is about to send, with or without the note of a transport
   recovery behind it, keeps each turn's calls answered right behind it, as long as the context it
   started from did and no history was shrunk.
   */
  lemma HistoriesPaired(config: LoopConfig, start: LoopState, script: seq<TurnScript>, n: nat)
    requires Fresh(start) && WellPaired(start.messages) && PlainAll(start.pending)
    requires KeepsCallIds(config) && CourteousAll(script) && n <= |script|
    ensures var s := RunTo(config, start, script, n);
            (s.phase.Going? || s.phase.Ended?) && Unshrunk(s.turns) ==>
              WellPaired(s.messages)
                && forall recovering :: WellPaired(AttemptHistory(s.messages + s.pending, recovering))
  {
    RunLaws(config, start, script, n);
    RunCourteous(config, start, script, n);
    var s := RunTo(config, start, script, n);
    hide RunTo;
    if (s.phase.Going? || s.phase.Ended?) && Unshrunk(s.turns) {
      StatePaired(config, start, s);
      hide *;
      forall recovering ensures WellPaired(AttemptHistory(s.messages + s.pending, recovering)) {
        NotePaired(s.messages + s.pending, recovering);
      }
    }
  }

  lemma NotePaired(context: seq<AgentMessage>, recovering: bool)
    requires WellPaired(context)
    ensures WellPaired(AttemptHistory(context, recovering))
  {
    if recovering {
      PlainPaired([TRANSPORT_RECOVERY_NOTE]);
      hide WellPaired, StartsAfresh;
      AppendKeeps(context, [TRANSPORT_RECOVERY_NOTE]);
    }
  }

  lemma StatePaired(config: LoopConfig, start: LoopState, s: LoopState)
    requires LoopInv(config, start, s) && CourteousState(s) && Unshrunk(s.turns) && (s.phase.Going? || s.phase.Ended?)
    requires WellPaired(start.messages) && KeepsCallIds(config)
    ensures WellPaired(s.messages) && WellPaired(s.messages + s.pending)
  {
    LiveUnshrunk(start.messages, s.turns);
    hide LiveAfter, Requested, WellPaired, TurnShape, CourteousTurn, KeepsCallIds, StartsAfresh, PlainAll, AllMessages,
         AllEvents, Continues, Final;
    forall k: nat | k < |s.turns| ensures TurnShape(config, s.turns[k]) && CourteousTurn(s.turns[k]) {
      assert Proper(config, start, s.turns, k);
    }
    TurnsPaired(config, start.messages, s.turns, |s.turns|);
    assert s.turns[..|s.turns|] == s.turns;
    PlainPaired(s.pending);
    AppendKeeps(s.messages, s.pending);
  }

  /** After normalization the result at j carries the wire id of call k of the assistant message at a. */
  predicate SharesWire(messages: seq<AgentMessage>, a: nat, j: nat, k: nat) {
    var out := Normalize(messages);
    a < |out| && j < |out| && out[j].ToolResult? && k < |IdsOf(out[a])| && out[j].toolCallId == IdsOf(out[a])[k]
  }

  predicate HasCall(messages: seq<AgentMessage>, a: nat, j: nat)
    requires a < |messages|
  {
    exists k: nat :: k < |IdsOf(messages[a])| && SharesWire(messages, a, j, k)
  }

  predicate HasResult(messages: seq<AgentMessage>, a: nat, b: nat, k: nat) {
    exists j: nat :: a < j < b && SharesWire(messages, a, j, k)
  }

  /** The calls of message a and the results up to b share wire ids one to one, and exactly where they match. */
  ghost predicate OneToOne(messages: seq<AgentMessage>, a: nat, b: nat)
    requires a < b <= |messages|
  {
    && (forall j: nat, k: nat :: a < j < b && k < |IdsOf(messages[a])| ==>
          (SharesWire(messages, a, j, k) <==> Matches(messages, a, j, k)))
    && (forall j: nat :: a < j < b ==> HasCall(messages, a, j))
    && (forall k: nat :: k < |IdsOf(messages[a])| ==> HasResult(messages, a, b, k))
    && (forall j: nat, k: nat, l: nat :: SharesWire(messages, a, j, k) && SharesWire(messages, a, j, l) ==> k == l)
  }

  lemma PairAt(messages: seq<AgentMessage>, a: nat, b: nat, j: nat, k: nat)
    requires AnsweredRun(messages, a, b) && a < j < b && k < |IdsOf(messages[a])|
    ensures SharesWire(messages, a, j, k) <==> Matches(messages, a, j, k)
  {
    hide NormalizedAt, Matches, TurnWires, IdsOf, Normalized;
    NormalizedIndex(messages, |messages|, j);
    NormalizedIndex(messages, |messages|, a);
    RunPairing(messages, a, b, j, k);
  }

  lemma WireOnce(messages: seq<AgentMessage>, a: nat, j: nat, k: nat, l: nat)
    requires a < |messages| && SharesWire(messages, a, j, k) && SharesWire(messages, a, j, l)
    ensures k == l
  {
    NormalizedIndex(messages, |messages|, a);
    NormalizedIds(messages, a);
    hide NormalizedAt, TurnWires, IdsOf, Normalized;
    if k < l {
      DistinctTurnWires(messages, a, k, l);
    } else if l < k {
      DistinctTurnWires(messages, a, l, k);
    }
  }

  lemma AnsweredOneToOne(messages: seq<AgentMessage>, a: nat, b: nat)
    requires AnsweredRun(messages, a, b)
    ensures a < b <= |messages| && OneToOne(messages, a, b)
  {
    assert a < b <= |messages|;
    hide *;
    forall j: nat, k: nat | a < j < b && k < |IdsOf(messages[a])|
      ensures SharesWire(messages, a, j, k) <==> Matches(messages, a, j, k)
    {
      PairAt(messages, a, b, j, k);
    }
    forall j: nat | a < j < b ensures HasCall(messages, a, j) {
      var k := ResultNamed(messages, a, b, j);
      PairAt(messages, a, b, j, k);
      CallWitness(messages, a, j, k);
    }
    forall k: nat | k < |IdsOf(messages[a])| ensures HasResult(messages, a, b, k) {
      var j := CallNamed(messages, a, b, k);
      PairAt(messages, a, b, j, k);
      ResultWitness(messages, a, b, j, k);
    }
    forall j: nat, k: nat, l: nat | SharesWire(messages, a, j, k) && SharesWire(messages, a, j, l) ensures k == l {
      WireOnce(messages, a, j, k, l);
    }
    OneToOneFrom(messages, a, b);
  }

  lemma CallWitness(messages: seq<AgentMessage>, a: nat, j: nat, k: nat)
    requires a < |messages| && k < |IdsOf(messages[a])| && SharesWire(messages, a, j, k)
    ensures HasCall(messages, a, j)
  {
  }

  lemma ResultWitness(messages: seq<AgentMessage>, a: nat, b: nat, j: nat, k: nat)
    requires a < j < b && SharesWire(messages, a, j, k)
    ensures HasResult(messages, a, b, k)
  {
  }

  lemma OneToOneFrom(messages: seq<AgentMessage>, a: nat, b: nat)
    requires a < b <= |messages|
    requires forall j: nat, k: nat :: a < j < b && k < |IdsOf(messages[a])| ==>
             (SharesWire(messages, a, j, k) <==> Matches(messages, a, j, k))
    requires forall j: nat :: a < j < b ==> HasCall(messages, a, j)
    requires forall k: nat :: k < |IdsOf(messages[a])| ==> HasResult(messages, a, b, k)
    requires forall j: nat, k: nat, l: nat :: SharesWire(messages, a, j, k) && SharesWire(messages, a, j, l) ==> k == l
    ensures OneToOne(messages, a, b)
  {
    hide SharesWire, HasCall, HasResult, IdsOf, Matches;
  }

  /**
   The composition: normalize any history the loop is about to send or retry with. Its call ids are
   pairwise distinct, and in every turn the calls and the results right behind them share wire
   ids one to one, exactly where they match.
   */
  lemma NormalizedHistories(config: LoopConfig, start: LoopState, script: seq<TurnScript>, n: nat, recovering: bool)
    requires Fresh(start) && WellPaired(start.messages) && PlainAll(start.pending)
    requires KeepsCallIds(config) && CourteousAll(script) && n <= |script|
    requires RunTo(config, start, script, n).phase.Going? || RunTo(config, start, script, n).phase.Ended?
    requires Unshrunk(RunTo(config, start, script, n).turns)
    ensures var s := RunTo(config, start, script, n);
            var messages := AttemptHistory(s.messages + s.pending, recovering);
            && Distinct(Ids(Normalize(messages), |messages|))
            && forall a: nat :: a < |messages| && ToolCalls(messages[a]) != [] ==>
              OneToOne(messages, a, RunEnd(messages, a + 1))
  {
    HistoriesPaired(config, start, script, n);
    var s := RunTo(config, start, script, n);
    var messages := AttemptHistory(s.messages + s.pending, recovering);
    hide RunTo, Unshrunk, Fresh, PlainAll, CourteousAll, AttemptHistory;
    NormalizationLaws(messages);
    hide Ids, Normalize, Mentioned, Named, Distinct, OneToOne, AnsweredRun;
    forall a: nat | a < |messages| && ToolCalls(messages[a]) != []
      ensures OneToOne(messages, a, RunEnd(messages, a + 1))
    {
      assert AnsweredAt(messages, a);
      AnsweredOneToOne(messages, a, RunEnd(messages, a + 1));
    }
  }

  // ----- the requests of a run

  /** The id normalizer is the one context transform. */
  ghost predicate NormalizesContext(config: LoopConfig) {
    |config.transforms| == 1 && forall messages :: config.transforms[0](messages) == Normalize(messages)
  }

  /**
   The messages sent are a normalized history: unique call ids, and every turn's calls and results
   paired one to one.
   */
  ghost predicate SentPaired(sent: seq<AgentMessage>, history: seq<AgentMessage>) {
    && sent == Normalize(history)
    && Distinct(Ids(sent, |sent|))
    && forall a: nat :: a < |history| && ToolCalls(history[a]) != [] ==> OneToOne(history, a, RunEnd(history, a + 1))
  }

  /** They are those of this history, with or without the recovery note behind it. */
  ghost predicate ReadyToSend(sent: seq<AgentMessage>, history: seq<AgentMessage>) {
    exists recovering :: SentPaired(sent, AttemptHistory(history, recovering))
  }

  lemma PairedIsReady(history: seq<AgentMessage>)
    requires WellPaired(history)
    ensures SentPaired(Normalize(history), history)
  {
    NormalizationLaws(history);
    assert |Normalize(history)| == |history|;
    hide Ids, Normalize, Mentioned, Named, Distinct, OneToOne, AnsweredRun;
    forall a: nat | a < |history| && ToolCalls(history[a]) != [] ensures OneToOne(history, a, RunEnd(history, a + 1)) {
      assert AnsweredAt(history, a);
      AnsweredOneToOne(history, a, RunEnd(history, a + 1));
    }
  }

  lemma SentIsNormalized(config: LoopConfig, history: seq<AgentMessage>)
    requires NormalizesContext(config)
    ensures Sent(config, history) == Normalize(history)
  {
    hide Normalize;
    assert Transformed(config.transforms, history, 0) == history;
  }

  lemma RequestReady(config: LoopConfig, history: seq<AgentMessage>, iteration: nat, events: seq<AgentEvent>,
                     e: AgentEvent)
    requires NormalizesContext(config) && WellPaired(history)
    requires RequestsFaithful(config, [history], iteration, events) && e in events && e.ProviderRequestPrepared?
    ensures ReadyToSend(e.messages, history)
  {
    hide WellPaired, Normalize, NormalizesContext, SentPaired, Sent;
    var h :| h in [history] && FaithfulRequest(config, h, iteration, e);
    var recovering := e.messages != Sent(config, history);
    var sent := AttemptHistory(history, recovering);
    NotePaired(history, recovering);
    PairedIsReady(sent);
    SentIsNormalized(config, sent);
    assert SentPaired(e.messages, AttemptHistory(history, recovering));
  }

  lemma RecordPaired(config: LoopConfig, start: LoopState, turns: seq<Turn>, k: nat, injected: seq<AgentMessage>)
    requires Chronicle(config, start, turns) && k <= |turns| && Unshrunk(turns[..k]) && PlainAll(injected)
    requires forall j :: 0 <= j < |turns| ==> CourteousTurn(turns[j])
    requires WellPaired(start.messages) && KeepsCallIds(config)
    ensures WellPaired(LiveAfter(start.messages, turns[..k]) + injected)
  {
    hide WellPaired, TurnShape, CourteousTurn, KeepsCallIds, StartsAfresh, PlainAll, AllMessages, LiveAfter, Unshrunk,
         Continues, Requested;
    forall j: nat | j < |turns| ensures TurnShape(config, turns[j]) && CourteousTurn(turns[j]) {
      assert Proper(config, start, turns, j);
    }
    TurnsPaired(config, start.messages, turns, k);
    LiveUnshrunk(start.messages, turns[..k]);
    PlainPaired(injected);
    AppendKeeps(LiveAfter(start.messages, turns[..k]), injected);
  }

  /**
   With the id normalizer as the context transform, every request of every recorded turn, in every
   run and whatever became of it, carries unique call ids and one-to-one paired turns, until a
   history is shrunk.
   */
  lemma RequestsPaired(config: LoopConfig, start: LoopState, script: seq<TurnScript>, n: nat, k: nat, e: AgentEvent)
    requires Fresh(start) && WellPaired(start.messages) && PlainAll(start.pending)
    requires KeepsCallIds(config) && CourteousAll(script) && NormalizesContext(config) && n <= |script|
    requires k < |RunTo(config, start, script, n).turns| && Unshrunk(RunTo(config, start, script, n).turns[..k + 1])
    requires e in RunTo(config, start, script, n).turns[k].streamEvents && e.ProviderRequestPrepared?
    ensures var turns := RunTo(config, start, script, n).turns;
            ReadyToSend(e.messages, start.messages + AllMessages(turns[..k]) + turns[k].injected)
  {
    RunLaws(config, start, script, n);
    RunCourteous(config, start, script, n);
    var s := RunTo(config, start, script, n);
    hide RunTo, WellPaired, TurnShape, KeepsCallIds, PlainAll, CourteousAll, AllMessages, LiveAfter, Continues,
         RequestsFaithful,
         ReadyToSend, NormalizesContext, Books, Interrupted, Final;
    assert Proper(config, start, s.turns, k);
    assert s.turns[..k + 1][k] == s.turns[k] && CourteousTurn(s.turns[k]);
    assert Unshrunk(s.turns[..k]) by {
      forall j | 0 <= j < k ensures s.turns[..k][j].shrunk == [] { assert s.turns[..k + 1][j] == s.turns[j]; }
    }
    LiveUnshrunk(start.messages, s.turns[..k]);
    RecordPaired(config, start, s.turns, k, s.turns[k].injected);
    var history := LiveAfter(start.messages, s.turns[..k]) + s.turns[k].injected;
    NothingAdded([history]);
    assert Histories(start, s.turns, k) == [history];
    RequestReady(config, history, k, s.turns[k].streamEvents, e);
  }

  /** The requests of the cut turn of a failed or waiting run, unless its own history was shrunk. */
  ghost predicate CutRequestsPaired(start: LoopState, turns: seq<Turn>, cut: Cut) {
    forall e :: !cut.Unopened? && cut.shrunk == [] && e in cut.streamEvents && e.ProviderRequestPrepared? ==>
      ReadyToSend(e.messages, NextHistory(start, turns))
  }

  /** The same for the turn in which a failed or waiting run was cut short. */
  lemma LastRequestsPaired(config: LoopConfig, start: LoopState, script: seq<TurnScript>, n: nat)
    requires Fresh(start) && WellPaired(start.messages) && PlainAll(start.pending)
    requires KeepsCallIds(config) && CourteousAll(script) && NormalizesContext(config) && n <= |script|
    requires RunTo(config, start, script, n).phase.Halted? || RunTo(config, start, script, n).phase.Stalled?
    requires Unshrunk(RunTo(config, start, script, n).turns)
    ensures var s := RunTo(config, start, script, n);
            exists cut :: CutAt(config, start, s, cut) && CutRequestsPaired(start, s.turns, cut)
  {
    RunLaws(config, start, script, n);
    RunCourteous(config, start, script, n);
    var s := RunTo(config, start, script, n);
    hide RunTo, WellPaired, KeepsCallIds, PlainAll, CourteousAll, LiveAfter, Chronicle, Continues, ReadyToSend,
         CourteousTurn,
         NormalizesContext, Books, Final, AllEvents, AllMessages, Injection, RequestsFaithful;
    var cut :| CutAt(config, start, s, cut);
    assert s.turns[..|s.turns|] == s.turns;
    RecordPaired(config, start, s.turns, |s.turns|, s.pending);
    forall e | !cut.Unopened? && cut.shrunk == [] && e in cut.streamEvents && e.ProviderRequestPrepared?
      ensures ReadyToSend(e.messages, NextHistory(start, s.turns))
    {
      NothingAdded([NextHistory(start, s.turns)]);
      RequestReady(config, NextHistory(start, s.turns), |s.turns|, cut.streamEvents, e);
    }
  }
}

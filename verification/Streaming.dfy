/** One provider turn: the max-token ladder inside overflow recovery (src/run.rs). */
module Streaming {
  import opened Wrappers
  import opened Transcript
  import opened Config
  import opened Gates

  /** How one provider stream ends: with a message, with an error event, or without either. */
  datatype Answer = Done(message: AgentMessage) | ErrorEvent(kind: StreamErrorKind) | Closed

  /** One provider attempt, and whether the run has been cancelled by the time the loop reacts to it. */
  datatype Attempt = Attempt(answer: Answer, cancelled: bool)

  datatype Reply = Got(message: AgentMessage, allow: Option<set<string>>) | Lost(error: LoopError)

  /** `Awaiting`: the provider has not answered the pending attempt yet. */
  datatype StreamOutcome =
    | Awaiting
    | Accepted(message: AgentMessage, allow: Option<set<string>>)
    | Rejected(error: LoopError, cancelled: bool)

  const TRANSPORT_RECOVERY_NOTE: AgentMessage :=
    System("[runtime context: transport recovery, not user instruction]")

  function LoopErrorFromStreamKind(kind: StreamErrorKind): LoopError {
    if kind == AbortedStream then AbortedRun else Stream(kind)
  }

  function ZeroOutputRetryReasoning(reasoning: ReasoningEffort): ReasoningEffort {
    match reasoning
    case Medium => Minimal
    case High => Minimal
    case XHigh => Minimal
    case _ => reasoning
  }

  function SaturatingDouble(cap: U32): (r: U32)
    ensures r >= cap
    ensures r == cap <==> cap == 0 || cap == U32_MAX
  {
    if 2 * cap <= U32_MAX then 2 * cap else U32_MAX
  }

  /** The context transforms in registration order, each given what the ones before it left. */
  function Transformed(transforms: seq<seq<AgentMessage> -> seq<AgentMessage>>, messages: seq<AgentMessage>,
                       n: nat): seq<AgentMessage>
    requires n <= |transforms|
    decreases n
  {
    if n == 0 then messages else transforms[n - 1](Transformed(transforms, messages, n - 1))
  }

  function Sent(config: LoopConfig, history: seq<AgentMessage>): seq<AgentMessage> {
    Transformed(config.transforms, history, |config.transforms|)
  }

  function Allowed(config: LoopConfig, iteration: nat, history: seq<AgentMessage>): Option<set<string>> {
    Allowlist(config.gates, GateView(iteration, Sent(config, history)))
  }

  function ReplyTo(config: LoopConfig, iteration: nat, history: seq<AgentMessage>, answer: Answer): Reply {
    match answer
    case Done(message) => Got(message, Allowed(config, iteration, history))
    case ErrorEvent(kind) => Lost(LoopErrorFromStreamKind(kind))
    case Closed => Lost(Stream(Empty))
  }

  function Request(config: LoopConfig, iteration: nat, history: seq<AgentMessage>, cap: Option<U32>,
                   reasoning: ReasoningEffort): AgentEvent {
    ProviderRequestPrepared(iteration, Sent(config, history), Allowed(config, iteration, history), cap, reasoning)
  }

  // ----- the ladder

  datatype Rung = Rung(
    cap: Option<U32>,
    escalations: nat,
    recovering: bool,
    reasoning: ReasoningEffort,
    consumed: nat,
    events: seq<AgentEvent>,
    outcome: StreamOutcome)

  function Bottom(config: LoopConfig): Rung {
    Rung(config.maxOutputTokens, 0, false, config.reasoning, 0, [], Awaiting)
  }

  function AttemptHistory(context: seq<AgentMessage>, recovering: bool): seq<AgentMessage> {
    if recovering then context + [TRANSPORT_RECOVERY_NOTE] else context
  }

  /** Backing off before the next attempt, unless the run is cancelled meanwhile. */
  function BackOff(s: Rung, cancelled: bool): Rung {
    if cancelled then s.(outcome := Rejected(AbortedRun, true)) else s
  }

  function StopReasonOf(message: AgentMessage): StopReason {
    if message.Assistant? then message.stopReason else Other
  }

  /** What the ladder does with an assistant message. */
  function Judge(s: Rung, message: AgentMessage, allow: Option<set<string>>, cancelled: bool): Rung {
    match StopReasonOf(message)
    case Aborted => s.(outcome := Rejected(AbortedRun, cancelled))
    case Error => BackOff(s, cancelled)
    case MaxTokens =>
      if s.cap.None? || SaturatingDouble(s.cap.value) <= s.cap.value then s.(outcome := Accepted(message, allow))
      else
        var raised := SaturatingDouble(s.cap.value);
        s.(cap := Some(raised), escalations := s.escalations + 1,
           events := s.events + [OutputTokensEscalation(s.escalations + 1, s.cap.value, raised)])
    case _ => s.(outcome := Accepted(message, allow))
  }

  /** The next request goes out. */
  function Asked(config: LoopConfig, context: seq<AgentMessage>, iteration: nat, s: Rung): Rung {
    var request := Request(config, iteration, AttemptHistory(context, s.recovering), s.cap, s.reasoning);
    s.(consumed := s.consumed + 1, events := s.events + [request])
  }

  /** What the ladder does with a reply. */
  function React(config: LoopConfig, s: Rung, reply: Reply, cancelled: bool): Rung {
    match reply
    case Got(message, allow) => Judge(s, message, allow, cancelled)
    case Lost(error) =>
      if error == Stream(Empty) || error == Stream(Transient) || error == Stream(ProviderRateLimited) then
        BackOff(s, cancelled)
      else if error == Stream(ZeroOutputTransport) then
        BackOff(s.(recovering := true, reasoning := ZeroOutputRetryReasoning(config.reasoning)), cancelled)
      else
        s.(outcome := Rejected(error, cancelled))
  }

  function Climb(config: LoopConfig, context: seq<AgentMessage>, iteration: nat, s: Rung, attempt: Attempt): Rung {
    if s.outcome != Awaiting then s
    else
      React(config, Asked(config, context, iteration, s),
            ReplyTo(config, iteration, AttemptHistory(context, s.recovering), attempt.answer), attempt.cancelled)
  }

  /** The ladder after the first n attempts of a script. */
  function Ladder(config: LoopConfig, context: seq<AgentMessage>, iteration: nat, script: seq<Attempt>, n: nat): Rung
    requires n <= |script|
    decreases n
  {
    if n == 0 then Bottom(config)
    else Climb(config, context, iteration, Ladder(config, context, iteration, script, n - 1), script[n - 1])
  }

  // ----- laws of the ladder

  /** How often the cap can still double before it saturates. */
  function Headroom(cap: U32): nat
    decreases U32_MAX - cap
  {
    if cap == 0 || cap == U32_MAX then 0 else 1 + Headroom(SaturatingDouble(cap))
  }

  function HeadroomOf(cap: Option<U32>): nat {
    if cap.None? then 0 else Headroom(cap.value)
  }

  function Pow2(n: nat): nat {
    if n == 0 then 1 else 2 * Pow2(n - 1)
  }

  lemma {:induction false} HeadroomBound(cap: U32, r: nat)
    requires cap > 0 && cap * Pow2(r) >= U32_MAX
    ensures Headroom(cap) <= r
    decreases r
  {
    if cap != U32_MAX && r > 0 {
      var next := SaturatingDouble(cap);
      if next < U32_MAX {
        assert next * Pow2(r - 1) == cap * Pow2(r);
        HeadroomBound(next, r - 1);
      }
    }
  }

  lemma AtMost32Doublings(cap: U32)
    ensures Headroom(cap) <= 32
  {
    if cap > 0 {
      assert Pow2(8) == 256;
      assert Pow2(16) == 65536 by { assert Pow2(12) == 4096; }
      assert Pow2(24) == 0x100_0000 by { assert Pow2(20) == 0x10_0000; }
      assert Pow2(32) == 0x1_0000_0000 by { assert Pow2(28) == 0x1000_0000; }
      assert cap * Pow2(32) >= Pow2(32);
      HeadroomBound(cap, 32);
    }
  }

  /**
   The events of a ladder that now stands at `cap` after `count` escalations: requests carry the
   cap in force and the faithful history; escalation number k doubles, with saturation, the cap
   the one before it left.
   */
  ghost predicate Climbed(config: LoopConfig, context: seq<AgentMessage>, iteration: nat, events: seq<AgentEvent>,
                          cap: Option<U32>, count: nat)
    decreases |events|
  {
    if events == [] then cap == config.maxOutputTokens && count == 0
    else
      var front, last := events[..|events| - 1], events[|events| - 1];
      if last.ProviderRequestPrepared? then
        last.cap == cap && FaithfulRequest(config, context, iteration, last)
          && Climbed(config, context, iteration, front, cap, count)
      else
        && last.OutputTokensEscalation?
        && last.attempt == count > 0 && last.prevCap <= U32_MAX
        && last.newCap == SaturatingDouble(last.prevCap) > last.prevCap && cap == Some(last.newCap)
        && Climbed(config, context, iteration, front, Some(last.prevCap), count - 1)
  }

  /** A returned turn is never an error or an abort, and truncated only when the cap cannot be raised. */
  predicate Deliverable(message: AgentMessage, cap: Option<U32>) {
    && !StopReasonOf(message).Error? && !StopReasonOf(message).Aborted?
    && (StopReasonOf(message).MaxTokens? ==> cap.None? || cap.value == 0 || cap.value == U32_MAX)
  }

  /** What is sent is the transformed context, with at most one recovery note behind it. */
  predicate FaithfulRequest(config: LoopConfig, context: seq<AgentMessage>, iteration: nat, e: AgentEvent)
    requires e.ProviderRequestPrepared?
  {
    && e.iteration == iteration
    && (e.messages == Sent(config, context) || e.messages == Sent(config, context + [TRANSPORT_RECOVERY_NOTE]))
    && e.allow == Allowlist(config.gates, GateView(iteration, e.messages))
  }

  ghost predicate LadderInv(config: LoopConfig, context: seq<AgentMessage>, iteration: nat, s: Rung) {
    && Climbed(config, context, iteration, s.events, s.cap, s.escalations)
    && (s.outcome.Accepted? ==> Deliverable(s.outcome.message, s.cap))
  }

  lemma ClimbedAppend(config: LoopConfig, context: seq<AgentMessage>, iteration: nat, s: Rung, e: AgentEvent)
    requires Climbed(config, context, iteration, s.events, s.cap, s.escalations)
    ensures e.ProviderRequestPrepared? && e.cap == s.cap && FaithfulRequest(config, context, iteration, e) ==>
              Climbed(config, context, iteration, s.events + [e], s.cap, s.escalations)
    ensures e.OutputTokensEscalation? && e.attempt == s.escalations + 1 && s.cap == Some(e.prevCap)
              && e.newCap == SaturatingDouble(e.prevCap) > e.prevCap ==>
              Climbed(config, context, iteration, s.events + [e], Some(e.newCap), s.escalations + 1)
  {
    assert (s.events + [e])[..|s.events|] == s.events;
  }

  lemma JudgeKeeps(config: LoopConfig, context: seq<AgentMessage>, iteration: nat, s: Rung, message: AgentMessage,
                   allow: Option<set<string>>, cancelled: bool)
    requires LadderInv(config, context, iteration, s) && s.outcome == Awaiting
    ensures LadderInv(config, context, iteration, Judge(s, message, allow, cancelled))
  {
    hide Climbed;
    hide FaithfulRequest;
    var t := Judge(s, message, allow, cancelled);
    if t.escalations == s.escalations {
      assert t.events == s.events && t.cap == s.cap;
    } else {
      ClimbedAppend(config, context, iteration, s,
                    OutputTokensEscalation(s.escalations + 1, s.cap.value, SaturatingDouble(s.cap.value)));
    }
  }

  lemma AskedKeeps(config: LoopConfig, context: seq<AgentMessage>, iteration: nat, s: Rung)
    requires LadderInv(config, context, iteration, s) && s.outcome == Awaiting
    ensures LadderInv(config, context, iteration, Asked(config, context, iteration, s))
  {
    var e := Request(config, iteration, AttemptHistory(context, s.recovering), s.cap, s.reasoning);
    assert FaithfulRequest(config, context, iteration, e);
    hide Climbed, FaithfulRequest, Sent, Allowed;
    ClimbedAppend(config, context, iteration, s, e);
  }

  lemma ReactKeeps(config: LoopConfig, context: seq<AgentMessage>, iteration: nat, s: Rung, reply: Reply,
                   cancelled: bool)
    requires LadderInv(config, context, iteration, s) && s.outcome == Awaiting
    ensures LadderInv(config, context, iteration, React(config, s, reply, cancelled))
  {
    hide Climbed, Judge;
    if reply.Got? {
      JudgeKeeps(config, context, iteration, s, reply.message, reply.allow, cancelled);
    }
  }

  lemma ClimbKeeps(config: LoopConfig, context: seq<AgentMessage>, iteration: nat, s: Rung, attempt: Attempt)
    requires LadderInv(config, context, iteration, s)
    ensures LadderInv(config, context, iteration, Climb(config, context, iteration, s, attempt))
  {
    if s.outcome == Awaiting {
      AskedKeeps(config, context, iteration, s);
      hide LadderInv, React;
      ReactKeeps(config, context, iteration, Asked(config, context, iteration, s),
                 ReplyTo(config, iteration, AttemptHistory(context, s.recovering), attempt.answer), attempt.cancelled);
    }
  }

  /** Escalations use up the room the configured cap leaves for doubling. */
  lemma {:induction false} EscalationsUseHeadroom(config: LoopConfig, context: seq<AgentMessage>, iteration: nat,
                                                  events: seq<AgentEvent>, cap: Option<U32>, count: nat)
    requires Climbed(config, context, iteration, events, cap, count)
    ensures count + HeadroomOf(cap) == HeadroomOf(config.maxOutputTokens)
    decreases |events|
  {
    if events != [] {
      var front, last := events[..|events| - 1], events[|events| - 1];
      if last.ProviderRequestPrepared? {
        EscalationsUseHeadroom(config, context, iteration, front, cap, count);
      } else {
        EscalationsUseHeadroom(config, context, iteration, front, Some(last.prevCap), count - 1);
      }
    }
  }

  /** The last event is the request for this context, and its allowlist is `allow`. */
  predicate AnswersRequest(config: LoopConfig, context: seq<AgentMessage>, iteration: nat, events: seq<AgentEvent>,
                           allow: Option<set<string>>) {
    events != []
    && var e := events[|events| - 1];
       e.ProviderRequestPrepared? && e.allow == allow && FaithfulRequest(config, context, iteration, e)
  }

  lemma AskedAnswers(config: LoopConfig, context: seq<AgentMessage>, iteration: nat, s: Rung)
    ensures AnswersRequest(config, context, iteration, Asked(config, context, iteration, s).events,
                           Allowed(config, iteration, AttemptHistory(context, s.recovering)))
  {
    hide Sent;
  }

  lemma ReactAccepts(config: LoopConfig, s: Rung, reply: Reply, cancelled: bool)
    requires s.outcome == Awaiting
    ensures var t := React(config, s, reply, cancelled);
            t.outcome.Accepted? ==> t.events == s.events && reply.Got? && t.outcome.allow == reply.allow
  {
  }

  /** An accepted message comes with the allowlist of the last request, the one it answers. */
  lemma {:induction false} AcceptedAnswers(config: LoopConfig, context: seq<AgentMessage>, iteration: nat,
                                           script: seq<Attempt>, n: nat)
    requires n <= |script|
    ensures var s := Ladder(config, context, iteration, script, n);
            s.outcome.Accepted? ==> AnswersRequest(config, context, iteration, s.events, s.outcome.allow)
    decreases n
  {
    hide AnswersRequest, Asked, React, AttemptHistory, Allowed;
    if n > 0 {
      AcceptedAnswers(config, context, iteration, script, n - 1);
      var before, attempt := Ladder(config, context, iteration, script, n - 1), script[n - 1];
      if before.outcome == Awaiting {
        AskedAnswers(config, context, iteration, before);
        assert Asked(config, context, iteration, before).outcome
          == Awaiting by { AskedWaits(config, context, iteration, before); }
        ReactAccepts(config, Asked(config, context, iteration, before),
                     ReplyTo(config, iteration, AttemptHistory(context, before.recovering), attempt.answer),
                     attempt.cancelled);
      }
    }
  }

  lemma AskedWaits(config: LoopConfig, context: seq<AgentMessage>, iteration: nat, s: Rung)
    ensures Asked(config, context, iteration, s).outcome == s.outcome
  {
  }

  /** One of the first n attempts was lost to the transport before any output. */
  predicate LostBefore(script: seq<Attempt>, n: nat)
    requires n <= |script|
  {
    exists j :: 0 <= j < n && script[j].answer == ErrorEvent(ZeroOutputTransport)
  }

  /** Behind a lost attempt, efforts from medium up are lowered to minimal. */
  function RetryReasoning(config: LoopConfig, lost: bool): ReasoningEffort {
    if lost && config.reasoning in {Medium, High, XHigh} then Minimal else config.reasoning
  }

  lemma ReactRecovers(config: LoopConfig, s: Rung, iteration: nat, history: seq<AgentMessage>, attempt: Attempt)
    requires s.outcome == Awaiting && s.reasoning == RetryReasoning(config, s.recovering)
    ensures var t, lost := React(config, s, ReplyTo(config, iteration, history, attempt.answer), attempt.cancelled),
                           s.recovering || attempt.answer == ErrorEvent(ZeroOutputTransport);
            t.outcome == Awaiting ==> t.recovering == lost && t.reasoning == RetryReasoning(config, lost)
  {
    hide Allowed, SaturatingDouble;
  }

  lemma {:induction false} RecoveringExactly(config: LoopConfig, context: seq<AgentMessage>, iteration: nat,
                                             script: seq<Attempt>, n: nat)
    requires n <= |script|
    ensures var s := Ladder(config, context, iteration, script, n);
            s.outcome == Awaiting ==>
              s.recovering == LostBefore(script, n) && s.reasoning == RetryReasoning(config, LostBefore(script, n))
    decreases n
  {
    if n > 0 {
      RecoveringExactly(config, context, iteration, script, n - 1);
      var before := Ladder(config, context, iteration, script, n - 1);
      assert LostBefore(script, n)
        == (LostBefore(script, n - 1) || script[n - 1].answer == ErrorEvent(ZeroOutputTransport));
      if before.outcome == Awaiting {
        AskedWaits(config, context, iteration, before);
        ReactRecovers(config, Asked(config, context, iteration, before), iteration,
                      AttemptHistory(context, before.recovering), script[n - 1]);
      }
      hide React, ReplyTo, LostBefore, RetryReasoning, Request;
    }
  }

  lemma ReactExtends(config: LoopConfig, s: Rung, reply: Reply, cancelled: bool)
    ensures s.events <= React(config, s, reply, cancelled).events
  {
    hide SaturatingDouble, ZeroOutputRetryReasoning;
  }

  /** The history attempt n is made for: behind a lost attempt, with the recovery note. */
  function AskedHistory(context: seq<AgentMessage>, lost: bool): seq<AgentMessage> {
    context + (if lost then [TRANSPORT_RECOVERY_NOTE] else [])
  }

  /**
   What attempt n is asked with, as long as the ladder still waits: the cap in force, the allowlist
   of the gates on what the transforms left, and the recovery note behind the context and the lowered
   reasoning exactly if an earlier attempt of this ladder was lost to the transport before any output.
   */
  ghost predicate AskedAsItShould(config: LoopConfig, context: seq<AgentMessage>, iteration: nat, script: seq<Attempt>,
                                  n: nat)
    requires n < |script|
  {
    var s, lost := Ladder(config, context, iteration, script, n), LostBefore(script, n);
    var sent := Sent(config, AskedHistory(context, lost));
    s.outcome == Awaiting ==>
      s.events + [ProviderRequestPrepared(iteration, sent, Allowlist(config.gates, GateView(iteration, sent)), s.cap,
                                          RetryReasoning(config, lost))]
      <= Ladder(config, context, iteration, script, n + 1).events
  }

  lemma RequestExactly(config: LoopConfig, context: seq<AgentMessage>, iteration: nat, script: seq<Attempt>, n: nat)
    requires n < |script|
    ensures AskedAsItShould(config, context, iteration, script, n)
  {
    var s, lost := Ladder(config, context, iteration, script, n), LostBefore(script, n);
    RecoveringExactly(config, context, iteration, script, n);
    if s.outcome == Awaiting {
      var asked, sent := Asked(config, context, iteration, s), Sent(config, AskedHistory(context, lost));
      NothingAdded(context);
      assert AttemptHistory(context, lost) == AskedHistory(context, lost);
      assert asked.events == s.events
        + [ProviderRequestPrepared(iteration, sent, Allowlist(config.gates, GateView(iteration, sent)), s.cap,
                                   RetryReasoning(config, lost))];
      hide Asked, React, ReplyTo, LostBefore, RetryReasoning, Request, AttemptHistory, AskedHistory, Sent;
      ReactExtends(config, asked, ReplyTo(config, iteration, AttemptHistory(context, s.recovering), script[n].answer),
                   script[n].cancelled);
    }
  }

  /** The ladder asks again, unless the run was cancelled while it backed off. */
  ghost predicate AsksAgain(s: Rung, t: Rung, cancelled: bool) {
    t.outcome == (if cancelled then Rejected(AbortedRun, true) else Awaiting) && t.cap == s.cap
      && t.escalations == s.escalations
  }

  /** The ladder is done with its cap as it was. */
  ghost predicate DoneWith(s: Rung, t: Rung, outcome: StreamOutcome) {
    t.outcome == outcome && t.cap == s.cap && t.escalations == s.escalations
  }

  ghost predicate Accepts(s: Rung, t: Rung, message: AgentMessage) {
    t.outcome.Accepted? && t.outcome.message == message && t.cap == s.cap && t.escalations == s.escalations
  }

  /** Reaction to an assistant message, by the reason it stopped for. */
  ghost predicate ReactsToMessage(s: Rung, t: Rung, message: AgentMessage, cancelled: bool) {
    match if message.Assistant? then message.stopReason else Other
    case Aborted => DoneWith(s, t, Rejected(AbortedRun, cancelled))
    case Error => AsksAgain(s, t, cancelled)
    case MaxTokens =>
      if s.cap.None? || s.cap.value == 0 || s.cap.value == 0xFFFF_FFFF then Accepts(s, t, message)
      else
        && t.outcome == Awaiting && t.escalations == s.escalations + 1
        && t.cap == Some(if s.cap.value <= 0x7FFF_FFFF then 2 * s.cap.value else 0xFFFF_FFFF)
    case _ => Accepts(s, t, message)
  }

  /** Reaction to the n-th attempt, as long as the ladder still waits; otherwise it stays as it is. */
  ghost predicate AnsweredAsItShould(config: LoopConfig, context: seq<AgentMessage>, iteration: nat,
                                     script: seq<Attempt>,
                                     n: nat)
    requires n < |script|
  {
    var s, t := Ladder(config, context, iteration, script, n), Ladder(config, context, iteration, script, n + 1);
    if s.outcome != Awaiting then t == s
    else
      && t.consumed == s.consumed + 1
      && match script[n].answer
         case Done(message) => ReactsToMessage(s, t, message, script[n].cancelled)
         case Closed => AsksAgain(s, t, script[n].cancelled)
         case ErrorEvent(kind) =>
           if kind in {Empty, Transient, ProviderRateLimited, ZeroOutputTransport}
             then AsksAgain(s, t, script[n].cancelled)
           else DoneWith(s, t, Rejected(if kind.AbortedStream? then AbortedRun else Stream(kind), script[n].cancelled))
  }

  lemma JudgeExactly(s: Rung, message: AgentMessage, allow: Option<set<string>>, cancelled: bool)
    requires s.outcome == Awaiting
    ensures ReactsToMessage(s, Judge(s, message, allow, cancelled), message, cancelled)
    ensures Judge(s, message, allow, cancelled).consumed == s.consumed
  {
  }

  /** Reaction to a reply that is no message. */
  lemma LossExactly(config: LoopConfig, s: Rung, kind: StreamErrorKind, cancelled: bool)
    requires s.outcome == Awaiting
    ensures var t := React(config, s, Lost(LoopErrorFromStreamKind(kind)), cancelled);
            && t.consumed == s.consumed
            && if kind in {Empty, Transient, ProviderRateLimited, ZeroOutputTransport} then AsksAgain(s, t, cancelled)
               else DoneWith(s, t, Rejected(if kind.AbortedStream? then AbortedRun else Stream(kind), cancelled))
  {
    hide ZeroOutputRetryReasoning, Judge;
  }

  lemma AskedStands(config: LoopConfig, context: seq<AgentMessage>, iteration: nat, s: Rung)
    ensures var asked := Asked(config, context, iteration, s);
            && asked.cap == s.cap && asked.escalations == s.escalations && asked.outcome == s.outcome
            && asked.consumed == s.consumed + 1
  {
  }

  lemma AnswerExactly(config: LoopConfig, context: seq<AgentMessage>, iteration: nat, script: seq<Attempt>, n: nat)
    requires n < |script|
    ensures AnsweredAsItShould(config, context, iteration, script, n)
  {
    var s, a := Ladder(config, context, iteration, script, n), script[n];
    if s.outcome == Awaiting {
      var asked := Asked(config, context, iteration, s);
      AskedStands(config, context, iteration, s);
      hide Asked, AttemptHistory, Allowed, Judge;
      match a.answer {
        case Done(message) =>
          JudgeExactly(asked, message, Allowed(config, iteration, AttemptHistory(context, s.recovering)), a.cancelled);
        case ErrorEvent(kind) =>
          LossExactly(config, asked, kind, a.cancelled);
          hide React, LoopErrorFromStreamKind;
        case Closed =>
          assert LoopErrorFromStreamKind(Empty) == Stream(Empty);
          LossExactly(config, asked, Empty, a.cancelled);
          hide React, LoopErrorFromStreamKind;
      }
    }
  }

  /**
   Whatever mixture of truncations, transport failures and retries the provider answers with:
   at most 32 escalations, each doubling the cap the one before it left; every request carries
   the cap in force, and the recovery note and the lowered reasoning exactly behind an attempt lost
   to the transport; every answer is retried, escalated, returned or turned into an error as its
   kind or stop reason demands; and a returned turn is deliverable and comes with the allowlist of
   the last request.
   */
  lemma {:induction false} LadderLaws(config: LoopConfig, context: seq<AgentMessage>, iteration: nat,
                                      script: seq<Attempt>, n: nat)
    requires n <= |script|
    ensures LadderInv(config, context, iteration, Ladder(config, context, iteration, script, n))
    ensures Ladder(config, context, iteration, script, n).escalations <= 32
    ensures var s := Ladder(config, context, iteration, script, n);
            s.outcome.Accepted? ==> AnswersRequest(config, context, iteration, s.events, s.outcome.allow)
    ensures forall m: nat :: m < n ==>
              && AskedAsItShould(config, context, iteration, script, m)
              && AnsweredAsItShould(config, context, iteration, script, m)
    decreases n
  {
    AcceptedAnswers(config, context, iteration, script, n);
    forall m: nat | m < n
      ensures AskedAsItShould(config, context, iteration, script, m)
      ensures AnsweredAsItShould(config, context, iteration, script, m)
    {
      RequestExactly(config, context, iteration, script, m);
      AnswerExactly(config, context, iteration, script, m);
    }
    hide AnswersRequest, AskedAsItShould, AnsweredAsItShould;
    if n == 0 {
      assert LadderInv(config, context, iteration, Bottom(config));
    } else {
      LadderLaws(config, context, iteration, script, n - 1);
      ClimbKeeps(config, context, iteration, Ladder(config, context, iteration, script, n - 1), script[n - 1]);
    }
    var s := Ladder(config, context, iteration, script, n);
    EscalationsUseHeadroom(config, context, iteration, s.events, s.cap, s.escalations);
    if config.maxOutputTokens.Some? {
      AtMost32Doublings(config.maxOutputTokens.value);
    }
  }

  // ----- overflow recovery

  /** `shrunk` lists the histories the recovery hook successfully produced, in order. */
  datatype StreamRun = StreamRun(
    messages: seq<AgentMessage>,
    shrunk: seq<seq<AgentMessage>>,
    events: seq<AgentEvent>,
    outcome: StreamOutcome,
    hookCalls: nat)

  predicate Overflowed(outcome: StreamOutcome) {
    outcome.Rejected? && outcome.error == Stream(ContextOverflow)
  }

  lemma {:induction false} ConsumedWithin(config: LoopConfig, context: seq<AgentMessage>, iteration: nat,
                                          script: seq<Attempt>, n: nat)
    requires n <= |script|
    ensures Ladder(config, context, iteration, script, n).consumed <= n
    decreases n
  {
    if n > 0 {
      ConsumedWithin(config, context, iteration, script, n - 1);
      hide ReplyTo, Request;
    }
  }

  function Whole(config: LoopConfig, messages: seq<AgentMessage>, iteration: nat, script: seq<Attempt>): (r: Rung)
    ensures r.consumed <= |script|
  {
    ConsumedWithin(config, messages, iteration, script, |script|);
    Ladder(config, messages, iteration, script, |script|)
  }

  /**
   The recovery of one turn, `hookCalls` hook calls into the run; it ends because the history
   shrinks, whatever is streamed.
   */
  function Recover(config: LoopConfig, messages: seq<AgentMessage>, iteration: nat, script: seq<Attempt>,
                   hookCalls: nat): StreamRun
    decreases config.estimate(messages)
  {
    var ladder := Whole(config, messages, iteration, script);
    if !Overflowed(ladder.outcome) || config.overflowRecovery.None? || ladder.outcome.cancelled then
      StreamRun(messages, [], ladder.events, ladder.outcome, hookCalls)
    else
      var after := config.overflowRecovery.value(hookCalls, messages);
      if config.estimate(after) >= config.estimate(messages) then
        StreamRun(messages, [], ladder.events, ladder.outcome, hookCalls + 1)
      else
        var run := Recover(config, after, iteration, script[ladder.consumed..], hookCalls + 1);
        run.(shrunk := [after] + run.shrunk, events := ladder.events + [HistoryRecovered(messages, after)] + run.events)
  }

  /**
   The ladder over this history ends because the provider rejects it as too long, and the run has not
   been cancelled.
   */
  ghost predicate TooLong(config: LoopConfig, history: seq<AgentMessage>, iteration: nat, script: seq<Attempt>) {
    Ladder(config, history, iteration, script, |script|).outcome == Rejected(Stream(ContextOverflow), false)
  }

  /**
   The recovery's way from `start`, `calls` hook calls into the run: each history was too long, and
   what the hook made of it was strictly smaller; `last` is what remains, `rest` what is left of the
   script for it, and `events` what was reported on the way: each ladder's events and the recovery
   behind them.
   */
  ghost predicate Shrinks(config: LoopConfig, iteration: nat, start: seq<AgentMessage>, calls: nat,
                          script: seq<Attempt>,
                          shrunk: seq<seq<AgentMessage>>, last: seq<AgentMessage>, rest: seq<Attempt>,
                          events: seq<AgentEvent>)
    decreases |shrunk|
  {
    if shrunk == [] then last == start && rest == script && events == []
    else
      var ladder := Ladder(config, start, iteration, script, |script|);
      var reported := ladder.events + [HistoryRecovered(start, shrunk[0])];
      && TooLong(config, start, iteration, script)
      && config.overflowRecovery.Some? && shrunk[0] == config.overflowRecovery.value(calls, start)
      && config.estimate(shrunk[0]) < config.estimate(start)
      && ladder.consumed <= |script| && reported <= events
      && Shrinks(config, iteration, shrunk[0], calls + 1, script[ladder.consumed..], shrunk[1..], last, rest,
                 events[|reported|..])
  }

  /** The recovery `run` of a turn, as the way to a history left behind and the ladder over that one. */
  ghost predicate RecoversTo(config: LoopConfig, messages: seq<AgentMessage>, iteration: nat, script: seq<Attempt>,
                             hookCalls: nat, run: StreamRun) {
    exists rest, events ::
      && Shrinks(config, iteration, messages, hookCalls, script, run.shrunk, run.messages, rest, events)
      && run.outcome == Ladder(config, run.messages, iteration, rest, |rest|).outcome
      && run.events == events + Ladder(config, run.messages, iteration, rest, |rest|).events
  }

  lemma RecoversAtOnce(config: LoopConfig, iteration: nat, script: seq<Attempt>, hookCalls: nat, run: StreamRun)
    requires run.shrunk == []
    requires run.outcome == Ladder(config, run.messages, iteration, script, |script|).outcome
    requires run.events == Ladder(config, run.messages, iteration, script, |script|).events
    ensures RecoversTo(config, run.messages, iteration, script, hookCalls, run)
  {
    assert Shrinks(config, iteration, run.messages, hookCalls, script, [], run.messages, script, []);
    NothingAdded(run.events);
    hide Ladder;
  }

  lemma RecoversFurther(config: LoopConfig, messages: seq<AgentMessage>, iteration: nat, script: seq<Attempt>,
                        hookCalls: nat, run: StreamRun, more: StreamRun)
    requires TooLong(config, messages, iteration, script) && config.overflowRecovery.Some?
    requires var ladder, after := Ladder(config, messages, iteration, script, |script|),
                                  config.overflowRecovery.value(hookCalls, messages);
             && config.estimate(after) < config.estimate(messages) && ladder.consumed <= |script|
             && RecoversTo(config, after, iteration, script[ladder.consumed..], hookCalls + 1, more)
             && run.messages == more.messages && run.shrunk == [after] + more.shrunk && run.outcome == more.outcome
             && run.events == ladder.events + [HistoryRecovered(messages, after)] + more.events
    ensures RecoversTo(config, messages, iteration, script, hookCalls, run)
  {
    hide Ladder, TooLong;
    var ladder, after := Ladder(config, messages, iteration, script, |script|),
      config.overflowRecovery.value(hookCalls, messages);
    var left, reported := script[ladder.consumed..], ladder.events + [HistoryRecovered(messages, after)];
    var rest, events :|
      && Shrinks(config, iteration, after, hookCalls + 1, left, more.shrunk, more.messages, rest, events)
      && more.outcome == Ladder(config, more.messages, iteration, rest, |rest|).outcome
      && more.events == events + Ladder(config, more.messages, iteration, rest, |rest|).events;
    assert run.shrunk[1..] == more.shrunk && (reported + events)[|reported|..] == events;
    assert Shrinks(config, iteration, messages, hookCalls, script, run.shrunk, run.messages, rest, reported + events);
    Associate(reported, events, Ladder(config, more.messages, iteration, rest, |rest|).events);
  }

  /** There is a hook, and the history left behind is still too long for the provider. */
  ghost predicate Stuck(config: LoopConfig, run: StreamRun) {
    config.overflowRecovery.Some? && run.outcome == Rejected(Stream(ContextOverflow), false)
  }

  /**
   Overflow recovery, exactly, for any hook and any provider. It runs just when a history is
   rejected as too long, there is a hook and the run is not cancelled; it goes on as long as the
   hook makes the history strictly smaller, and so it ends; the turn's outcome and its last events
   are those of the ladder over the history left behind; the hook is called once for each history it shrank, and
   once more exactly if the last one is still too long and the hook could not make it smaller.
   */
  lemma {:induction false} RecoveryLaws(config: LoopConfig, messages: seq<AgentMessage>, iteration: nat,
                                        script: seq<Attempt>, hookCalls: nat)
    ensures var run := Recover(config, messages, iteration, script, hookCalls);
            && RecoversTo(config, messages, iteration, script, hookCalls, run)
            && run.hookCalls == hookCalls + |run.shrunk| + (if Stuck(config, run) then 1 else 0)
            && (Stuck(config, run) ==>
                  config.estimate(config.overflowRecovery.value(run.hookCalls - 1,
                                                                run.messages)) >= config.estimate(run.messages))
            && |run.shrunk| <= config.estimate(messages)
            && (config.overflowRecovery.None? ==> run.shrunk == [])
            && (run.outcome.Accepted? ==>
                  AnswersRequest(config, run.messages, iteration, run.events, run.outcome.allow))
    decreases config.estimate(messages)
  {
    RecoveryAnswers(config, messages, iteration, script, hookCalls);
    WholeIs(config, messages, iteration, script);
    RecoverStep(config, messages, iteration, script, hookCalls);
    var ladder := Whole(config, messages, iteration, script);
    var run := Recover(config, messages, iteration, script, hookCalls);
    hide Whole, Ladder, Recover, AnswersRequest, RecoversTo;
    if run.shrunk == [] {
      RecoversAtOnce(config, iteration, script, hookCalls, run);
    } else {
      var after, left := config.overflowRecovery.value(hookCalls, messages), script[ladder.consumed..];
      RecoveryLaws(config, after, iteration, left, hookCalls + 1);
      RecoversFurther(config, messages, iteration, script, hookCalls, run,
                      Recover(config, after, iteration, left, hookCalls + 1));
    }
  }

  /** The turn's message answers the last request, which was made for the history left behind. */
  lemma {:induction false} RecoveryAnswers(config: LoopConfig, messages: seq<AgentMessage>, iteration: nat,
                                           script: seq<Attempt>, hookCalls: nat)
    ensures var run := Recover(config, messages, iteration, script, hookCalls);
            run.outcome.Accepted? ==> AnswersRequest(config, run.messages, iteration, run.events, run.outcome.allow)
    decreases config.estimate(messages)
  {
    var ladder := Whole(config, messages, iteration, script);
    AcceptedAnswers(config, messages, iteration, script, |script|);
    WholeIs(config, messages, iteration, script);
    RecoverStep(config, messages, iteration, script, hookCalls);
    hide Whole, Ladder, Recover, FaithfulRequest;
    if Overflowed(ladder.outcome) && config.overflowRecovery.Some? && !ladder.outcome.cancelled {
      var after := config.overflowRecovery.value(hookCalls, messages);
      if config.estimate(after) < config.estimate(messages) {
        RecoveryAnswers(config, after, iteration, script[ladder.consumed..], hookCalls + 1);
        var more := Recover(config, after, iteration, script[ladder.consumed..], hookCalls + 1);
        if more.outcome.Accepted? {
          AnswersBehind(config, more.messages, iteration, ladder.events + [HistoryRecovered(messages, after)],
                        more.events, more.outcome.allow);
        }
      }
    }
  }

  lemma AnswersBehind(config: LoopConfig, context: seq<AgentMessage>, iteration: nat, before: seq<AgentEvent>,
                      events: seq<AgentEvent>, allow: Option<set<string>>)
    requires AnswersRequest(config, context, iteration, events, allow)
    ensures AnswersRequest(config, context, iteration, before + events, allow)
  {
    hide FaithfulRequest;
    assert (before + events)[|before + events| - 1] == events[|events| - 1];
  }

  /** Every request was made for one of the histories. */
  ghost predicate RequestsFaithful(config: LoopConfig, histories: seq<seq<AgentMessage>>, iteration: nat,
                                   events: seq<AgentEvent>) {
    forall e :: e in events && e.ProviderRequestPrepared? ==>
      exists h :: h in histories && FaithfulRequest(config, h, iteration, e)
  }

  lemma {:induction false} ClimbedRequests(config: LoopConfig, context: seq<AgentMessage>, iteration: nat,
                                           events: seq<AgentEvent>, cap: Option<U32>, count: nat)
    requires Climbed(config, context, iteration, events, cap, count)
    ensures RequestsFaithful(config, [context], iteration, events)
    decreases |events|
  {
    hide FaithfulRequest;
    if events != [] {
      var front, last := events[..|events| - 1], events[|events| - 1];
      if last.ProviderRequestPrepared? {
        ClimbedRequests(config, context, iteration, front, cap, count);
        assert context in [context];
      } else {
        ClimbedRequests(config, context, iteration, front, Some(last.prevCap), count - 1);
      }
      SplitLast(events);
    }
  }

  lemma RequestsAppend(config: LoopConfig, histories: seq<seq<AgentMessage>>, more: seq<seq<AgentMessage>>,
                       iteration: nat,
                       a: seq<AgentEvent>, b: seq<AgentEvent>, c: AgentEvent)
    requires RequestsFaithful(config, histories, iteration, a) && RequestsFaithful(config, more, iteration, b)
             && !c.ProviderRequestPrepared?
    ensures RequestsFaithful(config, histories + more, iteration, a + [c] + b)
  {
    hide FaithfulRequest;
    forall e | e in a + [c] + b && e.ProviderRequestPrepared?
      ensures exists h :: h in histories + more && FaithfulRequest(config, h, iteration, e)
    {
      if e in a {
        var h :| h in histories && FaithfulRequest(config, h, iteration, e);
        assert h in histories + more;
      } else {
        var h :| h in more && FaithfulRequest(config, h, iteration, e);
        assert h in histories + more;
      }
    }
  }

  /** Every request of a turn was made for the turn's own history or for one the recovery hook shrank it to. */
  lemma {:induction false} RecoveryRequests(config: LoopConfig, messages: seq<AgentMessage>, iteration: nat,
                                            script: seq<Attempt>, hookCalls: nat)
    ensures var run := Recover(config, messages, iteration, script, hookCalls);
            RequestsFaithful(config, [messages] + run.shrunk, iteration, run.events)
    decreases config.estimate(messages)
  {
    var ladder := Whole(config, messages, iteration, script);
    LadderLaws(config, messages, iteration, script, |script|);
    WholeIs(config, messages, iteration, script);
    ClimbedRequests(config, messages, iteration, ladder.events, ladder.cap, ladder.escalations);
    RecoverStep(config, messages, iteration, script, hookCalls);
    hide Whole, Ladder, Recover, RequestsFaithful, AskedAsItShould, AnsweredAsItShould, Climbed, AnswersRequest;
    NothingAdded([messages]);
    if Overflowed(ladder.outcome) && config.overflowRecovery.Some? && !ladder.outcome.cancelled {
      var after := config.overflowRecovery.value(hookCalls, messages);
      if config.estimate(after) < config.estimate(messages) {
        RecoveryRequests(config, after, iteration, script[ladder.consumed..], hookCalls + 1);
        var more := Recover(config, after, iteration, script[ladder.consumed..], hookCalls + 1);
        RequestsAppend(config, [messages], [after] + more.shrunk, iteration, ladder.events, more.events,
                       HistoryRecovered(messages, after));
      }
    }
  }

  /** The history left behind is the last one the hook produced, or the original one if none was. */
  function LeftBehind(messages: seq<AgentMessage>, shrunk: seq<seq<AgentMessage>>): seq<AgentMessage> {
    if shrunk == [] then messages else shrunk[|shrunk| - 1]
  }

  lemma {:induction false} ShrinksTo(config: LoopConfig, iteration: nat, start: seq<AgentMessage>, calls: nat,
                                     script: seq<Attempt>, shrunk: seq<seq<AgentMessage>>, last: seq<AgentMessage>,
                                     rest: seq<Attempt>, events: seq<AgentEvent>)
    requires Shrinks(config, iteration, start, calls, script, shrunk, last, rest, events)
    ensures last == LeftBehind(start, shrunk)
    decreases |shrunk|
  {
    hide TooLong;
    if shrunk != [] {
      var ladder := Ladder(config, start, iteration, script, |script|);
      hide Ladder;
      ShrinksTo(config, iteration, shrunk[0], calls + 1, script[ladder.consumed..], shrunk[1..], last, rest,
                events[|ladder.events| + 1..]);
    }
  }

  lemma RecoversToLast(config: LoopConfig, messages: seq<AgentMessage>, iteration: nat, script: seq<Attempt>,
                       hookCalls: nat, run: StreamRun)
    requires RecoversTo(config, messages, iteration, script, hookCalls, run)
    ensures run.messages == LeftBehind(messages, run.shrunk)
  {
    hide Shrinks, Ladder, LeftBehind;
    var rest, events :|
      Shrinks(config, iteration, messages, hookCalls, script, run.shrunk, run.messages, rest, events);
    ShrinksTo(config, iteration, messages, hookCalls, script, run.shrunk, run.messages, rest, events);
  }

  /** An event that streaming a turn can report. */
  predicate IsStreamEvent(e: AgentEvent) {
    e.ProviderRequestPrepared? || e.OutputTokensEscalation? || e.HistoryRecovered?
  }

  predicate StreamEventsOnly(events: seq<AgentEvent>) {
    forall k :: 0 <= k < |events| ==> IsStreamEvent(events[k])
  }

  lemma StreamEventsAppend(a: seq<AgentEvent>, b: seq<AgentEvent>)
    requires StreamEventsOnly(a) && StreamEventsOnly(b)
    ensures StreamEventsOnly(a + b)
  {
  }

  lemma {:induction false} LadderEvents(config: LoopConfig, context: seq<AgentMessage>, iteration: nat,
                                        script: seq<Attempt>, n: nat)
    requires n <= |script|
    ensures StreamEventsOnly(Ladder(config, context, iteration, script, n).events)
    decreases n
  {
    if n > 0 {
      LadderEvents(config, context, iteration, script, n - 1);
      ClimbEvents(config, context, iteration, Ladder(config, context, iteration, script, n - 1), script[n - 1]);
      hide Climb;
    }
  }

  lemma ClimbEvents(config: LoopConfig, context: seq<AgentMessage>, iteration: nat, s: Rung, attempt: Attempt)
    requires StreamEventsOnly(s.events)
    ensures StreamEventsOnly(Climb(config, context, iteration, s, attempt).events)
  {
    hide ReplyTo, Sent, Allowed, AttemptHistory;
  }

  /** Streaming reports nothing but requests, escalations and recovered histories. */
  lemma {:induction false} RecoveryEvents(config: LoopConfig, messages: seq<AgentMessage>, iteration: nat,
                                          script: seq<Attempt>, hookCalls: nat)
    ensures StreamEventsOnly(Recover(config, messages, iteration, script, hookCalls).events)
    decreases config.estimate(messages)
  {
    var ladder := Whole(config, messages, iteration, script);
    LadderEvents(config, messages, iteration, script, |script|);
    WholeIs(config, messages, iteration, script);
    RecoverStep(config, messages, iteration, script, hookCalls);
    var run := Recover(config, messages, iteration, script, hookCalls);
    hide Whole, Ladder, Recover;
    if Overflowed(ladder.outcome) && config.overflowRecovery.Some? && !ladder.outcome.cancelled {
      var after := config.overflowRecovery.value(hookCalls, messages);
      if config.estimate(after) < config.estimate(messages) {
        RecoveryEvents(config, after, iteration, script[ladder.consumed..], hookCalls + 1);
        var more := Recover(config, after, iteration, script[ladder.consumed..], hookCalls + 1);
        hide *;
        StreamEventsAppend(ladder.events, [HistoryRecovered(messages, after)]);
        StreamEventsAppend(ladder.events + [HistoryRecovered(messages, after)], more.events);
      }
    }
  }

  /** Every transform gets what the one before it left, the first the history, in registration order. */
  lemma {:induction false} SentInSteps(transforms: seq<seq<AgentMessage> -> seq<AgentMessage>>,
                                       history: seq<AgentMessage>, n: nat)
    returns (steps: seq<seq<AgentMessage>>)
    requires n <= |transforms|
    ensures |steps| == n + 1 && steps[0] == history && forall i :: 0 <= i < n ==>
            steps[i + 1] == transforms[i](steps[i])
    ensures Transformed(transforms, history, n) == steps[n]
    decreases n
  {
    if n == 0 {
      steps := [history];
    } else {
      var before := SentInSteps(transforms, history, n - 1);
      steps := before + [transforms[n - 1](before[n - 1])];
    }
  }

  // ----- the program

  method ApplyTransforms(transforms: seq<seq<AgentMessage> -> seq<AgentMessage>>, history: seq<AgentMessage>)
    returns (messages: seq<AgentMessage>)
    ensures messages == Transformed(transforms, history, |transforms|)
  {
    messages := history;
    for i := 0 to |transforms|
      invariant messages == Transformed(transforms, history, i)
    {
      messages := transforms[i](messages);
    }
  }

  method StreamAssistantResponse(config: LoopConfig, history: seq<AgentMessage>, iteration: nat, cap: Option<U32>,
                                 reasoning: ReasoningEffort, answer: Answer, sink: EventSink)
    returns (reply: Reply)
    modifies sink
    ensures reply == ReplyTo(config, iteration, history, answer)
    ensures sink.log == old(sink.log) + [Request(config, iteration, history, cap, reasoning)]
  {
    var messages := ApplyTransforms(config.transforms, history);
    var allow := CollectToolAllowlist(config.gates, GateView(iteration, messages));
    sink.Emit(ProviderRequestPrepared(iteration, messages, allow, cap, reasoning));
    match answer {
      case Done(message) => reply := Got(message, allow);
      case ErrorEvent(kind) => reply := Lost(LoopErrorFromStreamKind(kind));
      case Closed => reply := Lost(Stream(Empty));
    }
  }

  /** The ladder's reaction to an assistant message. */
  method JudgeMessage(cap: Option<U32>, escalations: nat, message: AgentMessage, allow: Option<set<string>>,
                      cancelled: bool, ghost s: Rung, ghost start: seq<AgentEvent>, sink: EventSink)
    returns (raised: Option<U32>, count: nat, outcome: StreamOutcome)
    requires s.cap == cap && s.escalations == escalations && s.outcome == Awaiting
    requires sink.log == start + s.events
    modifies sink
    ensures Judge(s, message, allow, cancelled) == s.(cap := raised, escalations := count, outcome := outcome,
                                                      events := Judge(s, message, allow, cancelled).events)
    ensures sink.log == start + Judge(s, message, allow, cancelled).events
  {
    raised, count, outcome := cap, escalations, Awaiting;
    var stop := StopReasonOf(message);
    if stop == Aborted {
      outcome := Rejected(AbortedRun, cancelled);
    } else if stop == Error {
      if cancelled {
        outcome := Rejected(AbortedRun, true);
      }
    } else if stop != MaxTokens || cap.None? {
      outcome := Accepted(message, allow);
    } else {
      var newCap := SaturatingDouble(cap.value);
      if newCap <= cap.value {
        outcome := Accepted(message, allow);
      } else {
        count := escalations + 1;
        sink.Emit(OutputTokensEscalation(count, cap.value, newCap));
        raised := Some(newCap);
      }
    }
  }

  /** The ladder's reaction to any reply. */
  method HandleReply(config: LoopConfig, v: Rung, reply: Reply, cancelled: bool, ghost s: Rung,
                     ghost start: seq<AgentEvent>, sink: EventSink)
    returns (w: Rung)
    requires v == s.(events := []) && s.outcome == Awaiting
    requires sink.log == start + s.events
    modifies sink
    ensures w == React(config, s, reply, cancelled).(events := [])
    ensures sink.log == start + React(config, s, reply, cancelled).events
  {
    w := v;
    match reply {
      case Got(message, allow) =>
        var cap, escalations, outcome := JudgeMessage(v.cap, v.escalations, message, allow, cancelled, s, start, sink);
        w := v.(cap := cap, escalations := escalations, outcome := outcome);
      case Lost(error) =>
        if error == Stream(ZeroOutputTransport) {
          w := w.(recovering := true, reasoning := ZeroOutputRetryReasoning(config.reasoning));
        } else if !(error == Stream(Empty) || error == Stream(Transient) || error == Stream(ProviderRateLimited)) {
          w := w.(outcome := Rejected(error, cancelled));
          return;
        }
        if cancelled {
          w := w.(outcome := Rejected(AbortedRun, true));
        }
    }
  }

  /** The mutable variables of the loop are kept in `v`, whose events go to the sink instead. */
  method StreamWithMaxTokensRecovery(config: LoopConfig, context: seq<AgentMessage>, iteration: nat,
                                     script: seq<Attempt>, sink: EventSink)
    returns (outcome: StreamOutcome, consumed: nat)
    modifies sink
    ensures var ladder := Whole(config, context, iteration, script);
            outcome == ladder.outcome && consumed == ladder.consumed && sink.log == old(sink.log) + ladder.events
  {
    var v := Bottom(config);
    ghost var s := v;
    hide Request, ReplyTo, React, Whole;
    while v.consumed < |script| && v.outcome == Awaiting
      invariant v.consumed <= |script|
      invariant s == Ladder(config, context, iteration, script, v.consumed)
      invariant v == s.(events := [])
      invariant sink.log == old(sink.log) + s.events
    {
      var attempt := script[v.consumed];
      var history := if v.recovering then context + [TRANSPORT_RECOVERY_NOTE] else context;
      ghost var asked := Asked(config, context, iteration, s);
      var reply := StreamAssistantResponse(config, history, iteration, v.cap, v.reasoning, attempt.answer, sink);
      v := v.(consumed := v.consumed + 1);
      s := React(config, asked, reply, attempt.cancelled);
      ReactConsumes(config, asked, reply, attempt.cancelled);
      v := HandleReply(config, v, reply, attempt.cancelled, asked, old(sink.log), sink);
    }
    LadderRests(config, context, iteration, script, v.consumed);
    WholeIs(config, context, iteration, script);
    outcome, consumed := v.outcome, v.consumed;
  }

  lemma ReactConsumes(config: LoopConfig, s: Rung, reply: Reply, cancelled: bool)
    ensures React(config, s, reply, cancelled).consumed == s.consumed
  {
  }

  lemma WholeIs(config: LoopConfig, context: seq<AgentMessage>, iteration: nat, script: seq<Attempt>)
    ensures Whole(config, context, iteration, script) == Ladder(config, context, iteration, script, |script|)
  {
  }

  /** Once the ladder has an outcome, further attempts are not looked at. */
  lemma LadderRests(config: LoopConfig, context: seq<AgentMessage>, iteration: nat, script: seq<Attempt>, n: nat)
    requires n <= |script|
    ensures Ladder(config, context, iteration, script, n).outcome != Awaiting ==>
              Whole(config, context, iteration, script) == Ladder(config, context, iteration, script, n)
  {
    if Ladder(config, context, iteration, script, n).outcome != Awaiting {
      LadderRestsUpTo(config, context, iteration, script, n, |script|);
    }
  }

  lemma {:induction false} LadderRestsUpTo(config: LoopConfig, context: seq<AgentMessage>, iteration: nat,
                                           script: seq<Attempt>, n: nat, m: nat)
    requires n <= m <= |script| && Ladder(config, context, iteration, script, n).outcome != Awaiting
    ensures Ladder(config, context, iteration, script, m) == Ladder(config, context, iteration, script, n)
    decreases m
  {
    if n < m {
      LadderRestsUpTo(config, context, iteration, script, n, m - 1);
    }
  }

  /** One round of the overflow loop: what a successful shrink adds in front of the rest of the recovery. */
  lemma RecoverStep(config: LoopConfig, messages: seq<AgentMessage>, iteration: nat, script: seq<Attempt>,
                    hookCalls: nat)
    ensures var ladder, run := Whole(config, messages, iteration, script),
            Recover(config, messages, iteration, script, hookCalls);
            if !Overflowed(ladder.outcome) || config.overflowRecovery.None? || ladder.outcome.cancelled then
              run == StreamRun(messages, [], ladder.events, ladder.outcome, hookCalls)
            else
              var after := config.overflowRecovery.value(hookCalls, messages);
              if config.estimate(after) >= config.estimate(messages) then
                run == StreamRun(messages, [], ladder.events, ladder.outcome, hookCalls + 1)
              else
                var more := Recover(config, after, iteration, script[ladder.consumed..], hookCalls + 1);
                run == StreamRun(more.messages, [after] + more.shrunk,
                                 ladder.events + [HistoryRecovered(messages, after)] + more.events, more.outcome,
                                 more.hookCalls)
  {
  }

  lemma Regroup(log: seq<AgentEvent>, a: seq<AgentEvent>, b: seq<AgentEvent>, c: seq<AgentEvent>)
    ensures log + (a + b + c) == log + a + b + c
  {
  }

  method StreamWithOverflowRecovery(config: LoopConfig, current: AgentContext, iteration: nat, script: seq<Attempt>,
                                    hookCalls: nat, sink: EventSink)
    returns (outcome: StreamOutcome, calls: nat)
    modifies current, sink
    ensures var run := Recover(config, old(current.messages), iteration, script, hookCalls);
            && outcome == run.outcome && calls == run.hookCalls
            && current.messages == run.messages
            && sink.log == old(sink.log) + run.events
  {
    calls := hookCalls;
    var rest := script;
    ghost var whole := Recover(config, current.messages, iteration, script, hookCalls);
    hide Recover, Whole;
    while true
      invariant var run := Recover(config, current.messages, iteration, rest, calls);
                && whole.messages == run.messages && whole.outcome == run.outcome && whole.hookCalls == run.hookCalls
                && old(sink.log) + whole.events == sink.log + run.events
      decreases config.estimate(current.messages)
    {
      RecoverStep(config, current.messages, iteration, rest, calls);
      ghost var ladder, logged := Whole(config, current.messages, iteration, rest), sink.log;
      var consumed;
      outcome, consumed := StreamWithMaxTokensRecovery(config, current.messages, iteration, rest, sink);
      if !Overflowed(outcome) || config.overflowRecovery.None? || outcome.cancelled {
        return;
      }
      var before := current.messages;
      current.messages := [];
      var beforeSize := config.estimate(before);
      var after := config.overflowRecovery.value(calls, before);
      calls := calls + 1;
      if config.estimate(after) >= beforeSize {
        current.messages := before;
        return;
      }
      sink.Emit(HistoryRecovered(before, after));
      current.messages := after;
      rest := rest[consumed..];
      ghost var more := Recover(config, after, iteration, rest, calls);
      Regroup(logged, ladder.events, [HistoryRecovered(before, after)], more.events);
    }
  }
}

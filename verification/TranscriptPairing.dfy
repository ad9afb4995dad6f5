/** Transcripts in which every turn's calls are answered right behind it. */
module TranscriptPairing {
  import opened Wrappers
  import opened Transcript
  import opened Config
  import opened Dispatch
  import opened AgentLoop
  import opened RunTheorems
  import opened History
  import opened Pairing

  /*
   What a turn of the loop appends has this property, and appending keeps it, as long as what is
   appended does not begin with a tool result and so cannot continue a run of results that belongs
   to an earlier turn.
   */

  /** Where the run of results that starts at n ends. */
  function RunEnd(messages: seq<AgentMessage>, n: nat): (b: nat)
    requires n <= |messages|
    ensures n <= b <= |messages|
    decreases |messages| - n
  {
    if n < |messages| && messages[n].ToolResult? then RunEnd(messages, n + 1) else n
  }

  /** Message a, if it calls tools, is followed at once by exactly one result per call. */
  ghost predicate AnsweredAt(messages: seq<AgentMessage>, a: nat)
    requires a < |messages|
  {
    ToolCalls(messages[a]) != [] ==> AnsweredRun(messages, a, RunEnd(messages, a + 1))
  }

  ghost predicate WellPaired(messages: seq<AgentMessage>) {
    forall a: nat :: a < |messages| ==> AnsweredAt(messages, a)
  }

  /** The messages do not continue a run of results. */
  predicate StartsAfresh(messages: seq<AgentMessage>) {
    messages != [] ==> !messages[0].ToolResult?
  }

  // ----- appending

  lemma {:induction false} RunEndPrefix(messages: seq<AgentMessage>, more: seq<AgentMessage>, n: nat)
    requires n <= |messages| && StartsAfresh(more)
    ensures RunEnd(messages + more, n) == RunEnd(messages, n)
    decreases |messages| - n
  {
    if n < |messages| {
      assert (messages + more)[n] == messages[n];
      if messages[n].ToolResult? {
        RunEndPrefix(messages, more, n + 1);
      }
    } else if more != [] {
      assert (messages + more)[n] == more[0];
    }
  }

  lemma {:induction false} RunEndShift(messages: seq<AgentMessage>, more: seq<AgentMessage>, n: nat)
    requires n <= |more|
    ensures RunEnd(messages + more, |messages| + n) == |messages| + RunEnd(more, n)
    decreases |more| - n
  {
    if n < |more| {
      assert (messages + more)[|messages| + n] == more[n];
      if more[n].ToolResult? {
        RunEndShift(messages, more, n + 1);
      }
    }
  }

  lemma {:induction false} ResultsShift(messages: seq<AgentMessage>, more: seq<AgentMessage>, lo: nat, hi: nat,
                                        id: string)
    requires lo <= hi <= |more|
    ensures CountResults(messages + more, |messages| + lo, |messages| + hi, id) == CountResults(more, lo, hi, id)
    decreases hi
  {
    if lo < hi {
      ResultsShift(messages, more, lo, hi - 1, id);
      assert (messages + more)[|messages| + hi - 1] == more[hi - 1];
    }
  }

  lemma PrefixAnswered(messages: seq<AgentMessage>, more: seq<AgentMessage>, a: nat)
    requires StartsAfresh(more) && a < |messages| && AnsweredAt(messages, a)
    ensures AnsweredAt(messages + more, a)
  {
    var all, b := messages + more, RunEnd(messages, a + 1);
    RunEndPrefix(messages, more, a + 1);
    assert all[a] == messages[a];
    if ToolCalls(messages[a]) != [] {
      hide CountResults, CountIn, IdsOf, RunEnd;
      assert ResultRun(all, a, b) by {
        forall j | a < j < b ensures all[j].ToolResult? {
          assert messages[j].ToolResult? && all[j] == messages[j];
        }
      }
      forall id ensures CountIn(IdsOf(all[a]), |IdsOf(all[a])|, id) == CountResults(all, a + 1, b, id) {
        ResultsPrefix(messages, more, a + 1, b, id);
      }
    }
  }

  lemma RunShift(messages: seq<AgentMessage>, more: seq<AgentMessage>, a: nat, b: nat)
    requires ResultRun(more, a, b)
    ensures ResultRun(messages + more, |messages| + a, |messages| + b)
  {
    var all, at := messages + more, |messages| + a;
    assert all[at] == more[a];
    forall j | at < j < |messages| + b ensures all[j].ToolResult? {
      assert more[j - |messages|].ToolResult? && all[j] == more[j - |messages|];
    }
  }

  lemma ShiftAnswered(messages: seq<AgentMessage>, more: seq<AgentMessage>, a: nat)
    requires a < |more| && AnsweredAt(more, a)
    ensures AnsweredAt(messages + more, |messages| + a)
  {
    var all, at, b := messages + more, |messages| + a, RunEnd(more, a + 1);
    RunEndShift(messages, more, a + 1);
    hide CountResults, CountIn, IdsOf, RunEnd, ResultRun, ToolCalls;
    assert all[at] == more[a];
    if ToolCalls(more[a]) != [] {
      RunShift(messages, more, a, b);
      forall id ensures CountIn(IdsOf(all[at]), |IdsOf(all[at])|, id) == CountResults(all, at + 1, |messages| + b, id) {
        ResultsShift(messages, more, a + 1, b, id);
      }
    }
  }

  /** Well-paired transcripts can be put together, unless the second would continue the first one's results. */
  lemma AppendKeeps(messages: seq<AgentMessage>, more: seq<AgentMessage>)
    requires WellPaired(messages) && WellPaired(more) && StartsAfresh(more)
    ensures WellPaired(messages + more)
  {
    hide AnsweredAt, StartsAfresh;
    forall a: nat | a < |messages + more| ensures AnsweredAt(messages + more, a) {
      if a < |messages| {
        PrefixAnswered(messages, more, a);
      } else {
        ShiftAnswered(messages, more, a - |messages|);
      }
    }
  }

  /** A message source's own kind of message: neither the model's nor a tool's. */
  predicate Plain(message: AgentMessage) {
    !message.Assistant? && !message.ToolResult?
  }

  predicate PlainAll(messages: seq<AgentMessage>) {
    forall k :: 0 <= k < |messages| ==> Plain(messages[k])
  }

  lemma PlainPaired(messages: seq<AgentMessage>)
    requires PlainAll(messages)
    ensures WellPaired(messages) && StartsAfresh(messages)
  {
    forall a: nat | a < |messages| ensures AnsweredAt(messages, a) {
      assert Plain(messages[a]);
    }
    if messages != [] {
      assert Plain(messages[0]);
    }
  }

  // ----- one turn

  lemma {:induction false} CountsAgree(calls: seq<ToolCall>, n: nat, id: string)
    requires n <= |calls|
    ensures CountIn(CallIds(calls), n, id) == CountId(calls[..n], id)
    decreases n
  {
    if n > 0 {
      CountsAgree(calls, n - 1, id);
      assert calls[..n] == calls[..n - 1] + [calls[n - 1]];
      CountIdAppend(calls[..n - 1], [calls[n - 1]], id);
    }
  }

  lemma {:induction false} AnswersAreResults(messages: seq<AgentMessage>, lo: nat, hi: nat, id: string)
    requires lo <= hi <= |messages|
    ensures CountResults(messages, lo, hi, id) == CountAnswers(messages[lo..hi], id)
    decreases hi
  {
    if lo < hi {
      AnswersAreResults(messages, lo, hi - 1, id);
      assert messages[lo..hi] == messages[lo..hi - 1] + [messages[hi - 1]];
      assert messages[lo..hi][..hi - lo - 1] == messages[lo..hi - 1];
    }
  }

  lemma {:induction false} ReportMessage(reports: seq<CallReport>, k: nat)
    requires k < |reports|
    ensures Messages(reports)[k] == ToMessage(reports[k]) && Calls(reports)[k] == reports[k].call
    decreases |reports|
  {
    if k < |reports| - 1 {
      ReportMessage(reports[..|reports| - 1], k);
    }
  }

  lemma {:induction false} RunEndAt(messages: seq<AgentMessage>, n: nat, b: nat)
    requires n <= b <= |messages|
    requires forall j :: n <= j < b ==> messages[j].ToolResult?
    requires b < |messages| ==> !messages[b].ToolResult?
    ensures RunEnd(messages, n) == b
    decreases b - n
  {
    if n < b {
      RunEndAt(messages, n + 1, b);
    }
  }

  lemma ChunkCounts(assistant: AgentMessage, results: seq<AgentMessage>, id: string)
    requires CountAnswers(results, id) == CountId(ToolCalls(assistant), id)
    ensures var all, ids := [assistant] + results, IdsOf(assistant);
            CountIn(ids, |ids|, id) == CountResults(all, 1, |all|, id)
  {
    var all, ids := [assistant] + results, IdsOf(assistant);
    assert |ids| == |ToolCalls(assistant)|;
    hide CountResults, CountIn, CountAnswers, CountId, ToolCalls;
    assert all[1..|all|] == results;
    AnswersAreResults(all, 1, |all|, id);
    CountsAgree(ToolCalls(assistant), |ids|, id);
    assert ToolCalls(assistant)[..|ids|] == ToolCalls(assistant);
  }

  /** An assistant message whose calls the results behind it answer. */
  lemma AnsweredChunk(assistant: AgentMessage, results: seq<AgentMessage>)
    requires assistant.Assistant?
    requires forall j :: 0 <= j < |results| ==> results[j].ToolResult?
    requires forall id :: CountAnswers(results, id) == CountId(ToolCalls(assistant), id)
    ensures WellPaired([assistant] + results)
  {
    var all := [assistant] + results;
    var ids := IdsOf(assistant);
    assert ResultRun(all, 0, |all|);
    RunEndAt(all, 1, |all|);
    ResultsPaired(all, 1);
    hide CountResults, CountIn, IdsOf, RunEnd, CountAnswers, CountId, ToolCalls;
    forall id ensures CountIn(ids, |ids|, id) == CountResults(all, 1, |all|, id) {
      ChunkCounts(assistant, results, id);
    }
    assert AnsweredRun(all, 0, |all|);
    hide AnsweredRun, ResultRun;
    assert AnsweredAt(all, 0);
  }

  lemma ResultsPaired(messages: seq<AgentMessage>, n: nat)
    requires n <= |messages| && forall j :: n <= j < |messages| ==> messages[j].ToolResult?
    ensures forall a: nat :: n <= a < |messages| ==> AnsweredAt(messages, a)
  {
    hide AnsweredRun, RunEnd;
  }

  lemma UncalledChunk(assistant: AgentMessage, results: seq<AgentMessage>)
    requires assistant.Assistant? && ToolCalls(assistant) == []
    requires forall j :: 0 <= j < |results| ==> results[j].ToolResult?
    ensures WellPaired([assistant] + results)
  {
    ResultsPaired([assistant] + results, 1);
    assert AnsweredAt([assistant] + results, 0);
  }

  lemma ResultsOfTurn(config: LoopConfig, t: Turn)
    requires TurnShape(config, t)
    ensures forall j :: 0 <= j < |Results(t)| ==> Results(t)[j].ToolResult?
  {
    if !t.reaction.Deliver? {
      forall j: nat | j < |t.reports| ensures Messages(t.reports)[j].ToolResult? {
        ReportMessage(t.reports, j);
      }
    }
  }

  /** What one turn appends is well paired. */
  lemma TurnPaired(config: LoopConfig, t: Turn)
    requires TurnShape(config, t) && KeepsCallIds(config)
    requires t.assistant.Assistant? && PlainAll(t.injected)
    ensures WellPaired(TurnMessages(t)) && StartsAfresh(TurnMessages(t))
  {
    var nudge := if t.reaction.Nudge? then [t.reaction.message] else [];
    assert PlainAll(nudge);
    PlainPaired(nudge);
    PlainPaired(t.injected);
    ResultsOfTurn(config, t);
    if ToolCalls(t.assistant) == [] {
      UncalledChunk(t.assistant, Results(t));
    } else {
      forall id ensures CountAnswers(Results(t), id) == CountId(ToolCalls(t.assistant), id) {
        TurnAnswersAll(config, t, id);
      }
      AnsweredChunk(t.assistant, Results(t));
    }
    hide WellPaired, TurnShape, Results, KeepsCallIds;
    AppendKeeps([t.assistant] + Results(t), nudge);
    assert StartsAfresh([t.assistant] + Results(t) + nudge);
    AppendKeeps(t.injected, [t.assistant] + Results(t) + nudge);
    assert TurnMessages(t) == t.injected + ([t.assistant] + Results(t) + nudge);
    if t.injected != [] {
      assert Plain(t.injected[0]);
    }
  }
}

/**
 `normalize_tool_call_ids` as it runs (src/history.rs): the reserved and used sets, the suffix
 counter and the per-turn queues are updated as the walk goes over the messages, once per call
 for an assistant message and once per result for the run of results behind it. The method is
 proved equal to the declarative normal form, whose laws are proved separately.
 */
module HistoryNormalizer {
  import opened Wrappers
  import opened Transcript
  import opened Naming
  import opened History
  import opened Pairing

  // ----- the program

  method CollectIds(messages: seq<AgentMessage>) returns (reserved: set<string>)
    ensures reserved == Mentioned(messages, |messages|)
  {
    reserved := {};
    for i := 0 to |messages|
      invariant reserved == Mentioned(messages, i)
    {
      var message := messages[i];
      hide Mentioned;
      assert Mentioned(messages, i + 1)
        == Mentioned(messages, i) + MentionedIn(message) by { MentionedNext(messages, i); }
      match message {
        case Assistant(blocks, _) =>
          var calls := ToolCalls(message);
          assert CallIds(calls)[..0] == [];
          ghost var before := reserved;
          for k := 0 to |calls|
            invariant reserved == before + IdSet(CallIds(calls)[..k])
          {
            assert CallIds(calls)[..k + 1] == CallIds(calls)[..k] + [calls[k].id];
            IdSetSnoc(CallIds(calls)[..k], calls[k].id);
            reserved := reserved + {calls[k].id};
          }
          assert CallIds(calls)[..|calls|] == IdsOf(message);
        case ToolResult(id, _, _, _, _) => reserved := reserved + {id};
        case _ => assert IdsOf(message) == [];
      }
    }
  }

  lemma MentionedNext(messages: seq<AgentMessage>, i: nat)
    requires i < |messages|
    ensures Mentioned(messages, i + 1) == Mentioned(messages, i) + MentionedIn(messages[i])
  {
  }

  /** The search for an unreserved candidate. */
  method FindFresh(reserved: set<string>, nextSuffix: nat) returns (candidate: string, next: nat)
    ensures next == FirstFree(reserved, nextSuffix) + 1 && candidate == Candidate(FirstFree(reserved, nextSuffix))
  {
    var suffix := nextSuffix;
    candidate := Candidate(suffix);
    next := suffix + 1;
    FirstFreeIsLeast(reserved, nextSuffix);
    while candidate in reserved
      invariant next >= 1 && candidate == Candidate(next - 1)
      invariant nextSuffix <= next - 1 <= FirstFree(reserved, nextSuffix)
      decreases FirstFree(reserved, nextSuffix) + 1 - next
    {
      candidate := Candidate(next);
      next := next + 1;
    }
  }

  method AssignId(s: NamingState, id: string) returns (t: NamingState, wire: string)
    ensures t == Assign(s, id) && wire == WireOf(s, id)
  {
    if id !in s.used {
      t, wire := s.(used := s.used + {id}), id;
    } else {
      var next;
      wire, next := FindFresh(s.reserved, s.next);
      t := NamingState(s.reserved + {wire}, s.used + {wire}, next, s.renamed + 1);
    }
  }

  /** What is queued for an id. */
  function Queued(queues: map<string, seq<string>>, id: string): seq<string> {
    if id in queues then queues[id] else []
  }

  function Rest(queue: seq<string>, taken: nat): seq<string> {
    if taken <= |queue| then queue[taken..] else []
  }

  lemma QueueSnoc(ids: seq<string>, wires: seq<string>, id: string, wire: string, other: string)
    requires |ids| == |wires|
    ensures Queue(ids + [id], wires + [wire], other) == Queue(ids, wires, other) + (if id == other then [wire] else [])
  {
    assert (ids + [id])[..|ids|] == ids && (wires + [wire])[..|ids|] == wires;
  }

  /** The queues hold every original id's wire ids. */
  ghost predicate Filled(queues: map<string, seq<string>>, ids: seq<string>, wires: seq<string>)
    requires |ids| == |wires|
  {
    forall id :: Queued(queues, id) == Queue(ids, wires, id)
  }

  lemma FillOne(queues: map<string, seq<string>>, ids: seq<string>, wires: seq<string>, id: string, wire: string)
    requires |ids| == |wires| && Filled(queues, ids, wires)
    ensures Filled(queues[id := Queued(queues, id) + [wire]], ids + [id], wires + [wire])
  {
    var more := queues[id := Queued(queues, id) + [wire]];
    hide Queue;
    forall other ensures Queued(more, other) == Queue(ids + [id], wires + [wire], other) {
      QueueSnoc(ids, wires, id, wire, other);
      NothingAdded(Queue(ids, wires, other));
      assert Queued(queues, other) == Queue(ids, wires, other);
    }
  }

  /** The first k blocks relabelled, with the naming and the queues they lead to. */
  ghost predicate RelabelledTo(s: NamingState, blocks: seq<AssistantBlock>, k: nat, t: NamingState,
                               relabelled: seq<AssistantBlock>, queues: map<string, seq<string>>)
    requires k <= |blocks|
  {
    var ids := CallIds(BlockCalls(blocks[..k]));
    && CallBlocks(blocks, k) == |ids|
    && t == Named(s, ids)
    && relabelled == Relabel(blocks, Wires(s, ids), k)
    && Filled(queues, ids, Wires(s, ids))
  }

  lemma IdsOfNextBlock(blocks: seq<AssistantBlock>, k: nat)
    requires k < |blocks|
    ensures CallIds(BlockCalls(blocks[..k + 1]))
            == CallIds(BlockCalls(blocks[..k])) + (if blocks[k].Call? then [blocks[k].call.id] else [])
  {
    assert blocks[..k + 1] == blocks[..k] + [blocks[k]];
    BlockCallsSnoc(blocks[..k], blocks[k]);
    if blocks[k].Call? {
      CallIdsSnoc(BlockCalls(blocks[..k]), blocks[k].call);
    } else {
      NothingAdded(BlockCalls(blocks[..k]));
    }
  }

  lemma RelabelCall(s: NamingState, blocks: seq<AssistantBlock>, k: nat, t: NamingState,
                    relabelled: seq<AssistantBlock>, queues: map<string, seq<string>>)
    requires k < |blocks| && blocks[k].Call? && RelabelledTo(s, blocks, k, t, relabelled, queues)
    ensures var id := blocks[k].call.id; var wire := WireOf(t, id);
            RelabelledTo(s, blocks, k + 1, Assign(t, id), relabelled + [Call(blocks[k].call.(id := wire))],
                         queues[id := Queued(queues, id) + [wire]])
  {
    var ids, id := CallIds(BlockCalls(blocks[..k])), blocks[k].call.id;
    IdsOfNextBlock(blocks, k);
    NamedSnoc(s, ids, id);
    RelabelLonger(blocks, Wires(s, ids), WireOf(t, id), k);
    FillOne(queues, ids, Wires(s, ids), id, WireOf(t, id));
    hide Named, Wires, WireOf, Assign, BlockCalls, Filled, CallIds;
  }

  lemma RelabelOther(s: NamingState, blocks: seq<AssistantBlock>, k: nat, t: NamingState,
                     relabelled: seq<AssistantBlock>, queues: map<string, seq<string>>)
    requires k < |blocks| && !blocks[k].Call? && RelabelledTo(s, blocks, k, t, relabelled, queues)
    ensures RelabelledTo(s, blocks, k + 1, t, relabelled + [blocks[k]], queues)
  {
    IdsOfNextBlock(blocks, k);
    NothingAdded(CallIds(BlockCalls(blocks[..k])));
    hide Named, Wires, BlockCalls, Filled, CallIds;
  }

  /** Gives every call of an assistant message its wire id and queues the wire ids by original id. */
  method RelabelCalls(s: NamingState, blocks: seq<AssistantBlock>)
    returns (t: NamingState, relabelled: seq<AssistantBlock>, queues: map<string, seq<string>>)
    ensures RelabelledTo(s, blocks, |blocks|, t, relabelled, queues)
  {
    t, relabelled, queues := s, [], map[];
    assert RelabelledTo(s, blocks, 0, t, relabelled, queues);
    hide RelabelledTo, WireOf, Assign;
    for k := 0 to |blocks|
      invariant RelabelledTo(s, blocks, k, t, relabelled, queues)
    {
      if blocks[k].Call? {
        RelabelCall(s, blocks, k, t, relabelled, queues);
        var id, wire := blocks[k].call.id, "";
        t, wire := AssignId(t, id);
        relabelled := relabelled + [Call(blocks[k].call.(id := wire))];
        queues := queues[id := Queued(queues, id) + [wire]];
      } else {
        RelabelOther(s, blocks, k, t, relabelled, queues);
        relabelled := relabelled + [blocks[k]];
      }
    }
  }

  /** Wire ids beyond the calls in sight do not matter. */
  lemma {:induction false} RelabelLonger(blocks: seq<AssistantBlock>, wires: seq<string>, wire: string, n: nat)
    requires n <= |blocks| && CallBlocks(blocks, n) <= |wires|
    ensures Relabel(blocks, wires + [wire], n) == Relabel(blocks, wires, n)
    decreases n
  {
    if n > 0 {
      RelabelLonger(blocks, wires, wire, n - 1);
    }
  }

  lemma NormalizedNext(messages: seq<AgentMessage>, i: nat)
    requires i < |messages|
    ensures Normalized(messages, i + 1) == Normalized(messages, i) + [NormalizedAt(messages, i)]
  {
    hide NormalizedAt;
  }

  lemma {:induction false} IdsOfResults(messages: seq<AgentMessage>, lo: nat, hi: nat)
    requires lo <= hi <= |messages| && forall j :: lo <= j < hi ==> messages[j].ToolResult?
    ensures Ids(messages, hi) == Ids(messages, lo)
    decreases hi
  {
    if lo < hi {
      IdsOfResults(messages, lo, hi - 1);
      NothingAdded(Ids(messages, lo));
    }
  }

  /** After the first results of a run, the queues hold the rest of every id's wire ids. */
  ghost predicate Holds(messages: seq<AgentMessage>, a: nat, i: nat, queues: map<string, seq<string>>)
    requires a < i <= |messages|
  {
    forall id :: Queued(queues, id)
      == Rest(Queue(IdsOf(messages[a]), TurnWires(messages, a), id), CountResults(messages, a + 1, i, id))
  }

  lemma RestNext(queue: seq<string>, taken: nat)
    ensures Rest(queue, taken) == [] <==> taken >= |queue|
    ensures taken < |queue| ==>
            Rest(queue, taken)[0] == queue[taken] && Rest(queue, taken + 1) == Rest(queue, taken)[1..]
    ensures taken >= |queue| ==> Rest(queue, taken + 1) == []
  {
  }

  lemma HoldsAt(messages: seq<AgentMessage>, a: nat, i: nat, queues: map<string, seq<string>>, id: string)
    requires a < i <= |messages| && Holds(messages, a, i, queues)
    ensures Queued(queues, id)
            == Rest(Queue(IdsOf(messages[a]), TurnWires(messages, a), id), CountResults(messages, a + 1, i, id))
  {
  }

  /** The queues once the result for `id` has taken its wire id, if there was one. */
  function Popped(queues: map<string, seq<string>>, id: string): map<string, seq<string>> {
    if Queued(queues, id) == [] then queues else queues[id := Queued(queues, id)[1..]]
  }

  lemma PoppedAt(messages: seq<AgentMessage>, a: nat, i: nat, queues: map<string, seq<string>>, other: string)
    requires a < i < |messages| && messages[i].ToolResult? && Holds(messages, a, i, queues)
    ensures Queued(Popped(queues, messages[i].toolCallId), other)
         == Rest(Queue(IdsOf(messages[a]), TurnWires(messages, a), other), CountResults(messages, a + 1, i + 1, other))
  {
    hide *;
    HoldsAt(messages, a, i, queues, other);
    RestNext(Queue(IdsOf(messages[a]), TurnWires(messages, a), other), CountResults(messages, a + 1, i, other));
    CountNext(messages, a + 1, i, other);
    QueuedAfterPop(queues, messages[i].toolCallId, other);
  }

  lemma CountNext(messages: seq<AgentMessage>, lo: nat, i: nat, id: string)
    requires lo <= i < |messages| && messages[i].ToolResult?
    ensures CountResults(messages, lo, i + 1, id)
            == CountResults(messages, lo, i, id) + (if messages[i].toolCallId == id then 1 else 0)
  {
  }

  lemma QueuedAfterPop(queues: map<string, seq<string>>, id: string, other: string)
    ensures Queued(Popped(queues, id), other)
         == if other == id && Queued(queues, id) != [] then Queued(queues, id)[1..] else Queued(queues, other)
  {
  }

  lemma ResultWireIs(messages: seq<AgentMessage>, a: nat, i: nat)
    requires a < i < |messages| && messages[i].ToolResult? && Head(messages, i) == Some(a)
    ensures NormalizedAt(messages, i) == messages[i].(toolCallId := ResultWire(messages, i))
    ensures var queue := Queue(IdsOf(messages[a]), TurnWires(messages, a), messages[i].toolCallId);
            var k := CountResults(messages, a + 1, i, messages[i].toolCallId);
            ResultWire(messages, i) == if k < |queue| then queue[k] else messages[i].toolCallId
  {
    hide IdsOf, TurnWires, Queue, CountResults, Head;
  }

  /** A result takes the wire id at the front of its id's queue. */
  lemma FrontNames(messages: seq<AgentMessage>, a: nat, i: nat, queues: map<string, seq<string>>)
    requires a < i < |messages| && messages[i].ToolResult? && Head(messages, i) == Some(a)
             && Holds(messages, a, i, queues)
    ensures var queue := Queued(queues, messages[i].toolCallId);
            NormalizedAt(messages, i) == if queue == [] then messages[i] else messages[i].(toolCallId := queue[0])
  {
    var id := messages[i].toolCallId;
    hide *;
    HoldsAt(messages, a, i, queues, id);
    RestNext(Queue(IdsOf(messages[a]), TurnWires(messages, a), id), CountResults(messages, a + 1, i, id));
    ResultWireIs(messages, a, i);
  }

  lemma PopHolds(messages: seq<AgentMessage>, a: nat, i: nat, queues: map<string, seq<string>>)
    requires a < i < |messages| && messages[i].ToolResult? && Holds(messages, a, i, queues)
    ensures Holds(messages, a, i + 1, Popped(queues, messages[i].toolCallId))
  {
    hide IdsOf, TurnWires, Queue, CountResults, Rest, Queued, Popped;
    forall other ensures Queued(Popped(queues, messages[i].toolCallId), other)
                      == Rest(Queue(IdsOf(messages[a]), TurnWires(messages, a), other),
                              CountResults(messages, a + 1, i + 1, other)) {
      PoppedAt(messages, a, i, queues, other);
    }
  }

  lemma RunGrows(messages: seq<AgentMessage>, a: nat, i: nat)
    requires ResultRun(messages, a, i) && i < |messages| && messages[i].ToolResult?
    ensures ResultRun(messages, a, i + 1)
  {
  }

  /** Renames one result from the front of its id's queue, if that holds anything. */
  method RenameResult(result: AgentMessage, queues: map<string, seq<string>>)
    returns (named: AgentMessage, left: map<string, seq<string>>)
    requires result.ToolResult?
    ensures var queue := Queued(queues, result.toolCallId);
            named == (if queue == [] then result else result.(toolCallId := queue[0]))
              && left == Popped(queues, result.toolCallId)
  {
    named, left := result, queues;
    if result.toolCallId in queues {
      var queue := queues[result.toolCallId];
      if queue != [] {
        left := queues[result.toolCallId := queue[1..]];
        named := result.(toolCallId := queue[0]);
      }
    }
  }

  /** Renames the results that follow the assistant message at a. */
  method RenameResults(messages: seq<AgentMessage>, a: nat, before: seq<AgentMessage>, queued: map<string, seq<string>>)
    returns (normalized: seq<AgentMessage>, i: nat)
    requires a < |messages| && messages[a].Assistant? && before == Normalized(messages, a + 1)
    requires Holds(messages, a, a + 1, queued)
    ensures ResultRun(messages, a, i) && normalized == Normalized(messages, i)
    ensures i < |messages| ==> !messages[i].ToolResult?
  {
    normalized, i := before, a + 1;
    var queues := queued;
    assert ResultRun(messages, a, i);
    hide Holds, NormalizedAt, Normalized, Head, Queued, Popped, ResultRun;
    while i < |messages| && messages[i].ToolResult?
      invariant a < i <= |messages| && ResultRun(messages, a, i)
      invariant normalized == Normalized(messages, i)
      invariant Holds(messages, a, i, queues)
    {
      RunHead(messages, a, i);
      RunGrows(messages, a, i);
      FrontNames(messages, a, i, queues);
      PopHolds(messages, a, i, queues);
      NormalizedNext(messages, i);
      var result;
      result, queues := RenameResult(messages[i], queues);
      normalized := normalized + [result];
      i := i + 1;
    }
  }

  /** An assistant message, all relabelled: its normalized form, and queues nothing has been taken from. */
  lemma AssistantDone(messages: seq<AgentMessage>, a: nat, t: NamingState, relabelled: seq<AssistantBlock>,
                      queues: map<string, seq<string>>)
    requires a < |messages| && messages[a].Assistant?
    requires RelabelledTo(Named(Start(messages), Ids(messages, a)), messages[a].blocks, |messages[a].blocks|, t,
                          relabelled, queues)
    ensures t == Named(Start(messages), Ids(messages, a + 1))
    ensures Normalized(messages, a + 1) == Normalized(messages, a) + [Assistant(relabelled, messages[a].stopReason)]
    ensures Holds(messages, a, a + 1, queues)
  {
    PassAssistant(messages, a);
    assert messages[a].blocks[..|messages[a].blocks|] == messages[a].blocks;
    assert CallIds(BlockCalls(messages[a].blocks)) == IdsOf(messages[a]);
    hide Queue, IdsOf, BlockCalls, CallIds, Named, Wires, Relabel, Normalized, Start, Ids;
    FilledHolds(messages, a, queues);
  }

  lemma FilledHolds(messages: seq<AgentMessage>, a: nat, queues: map<string, seq<string>>)
    requires a < |messages| && Filled(queues, IdsOf(messages[a]), TurnWires(messages, a))
    ensures Holds(messages, a, a + 1, queues)
  {
    hide Queue, TurnWires, IdsOf;
  }

  /** One step over a message without calls, outside any run of results. */
  lemma PassBy(messages: seq<AgentMessage>, i: nat)
    requires i < |messages| && !messages[i].Assistant?
    requires messages[i].ToolResult? ==> Head(messages, i).None?
    ensures Ids(messages, i + 1) == Ids(messages, i)
    ensures Normalized(messages, i + 1) == Normalized(messages, i) + [messages[i]]
    ensures Head(messages, i + 1).None?
  {
    IdsNext(messages, i);
    NormalizedNext(messages, i);
    assert IdsOf(messages[i]) == [];
    NothingAdded(Ids(messages, i));
    assert NormalizedAt(messages, i) == messages[i];
    hide Normalized, Ids, NormalizedAt;
  }

  /** One step over an assistant message. */
  lemma PassAssistant(messages: seq<AgentMessage>, i: nat)
    requires i < |messages| && messages[i].Assistant?
    ensures Named(Start(messages), Ids(messages, i + 1))
            == Named(Named(Start(messages), Ids(messages, i)), IdsOf(messages[i]))
    ensures CallBlocks(messages[i].blocks, |messages[i].blocks|) == |IdsOf(messages[i])|
    ensures Normalized(messages, i + 1) == Normalized(messages, i)
            + [Assistant(Relabel(messages[i].blocks, TurnWires(messages, i), |messages[i].blocks|),
                         messages[i].stopReason)]
  {
    CallBlocksOf(messages[i]);
    IdsNext(messages, i);
    NamedAppend(Start(messages), Ids(messages, i), IdsOf(messages[i]));
    NormalizedNext(messages, i);
    hide Normalized, Ids, Named, Relabel, CallBlocks, TurnWires, Start;
  }

  lemma IdsOfRun(messages: seq<AgentMessage>, a: nat, b: nat)
    requires ResultRun(messages, a, b)
    ensures a < b <= |messages| && Ids(messages, b) == Ids(messages, a + 1)
  {
    hide Ids;
    IdsOfResults(messages, a + 1, b);
  }

  /** One assistant message and the results behind it. */
  method NormalizeTurn(messages: seq<AgentMessage>, a: nat, s: NamingState, before: seq<AgentMessage>)
    returns (t: NamingState, normalized: seq<AgentMessage>, i: nat)
    requires a < |messages| && messages[a].Assistant?
    requires s == Named(Start(messages), Ids(messages, a)) && before == Normalized(messages, a)
    ensures a < i <= |messages| && t == Named(Start(messages), Ids(messages, i))
            && normalized == Normalized(messages, i)
    ensures i < |messages| ==> !messages[i].ToolResult?
  {
    hide *;
    var blocks, queues;
    t, blocks, queues := RelabelCalls(s, messages[a].blocks);
    AssistantDone(messages, a, t, blocks, queues);
    normalized := before + [Assistant(blocks, messages[a].stopReason)];
    normalized, i := RenameResults(messages, a, normalized, queues);
    IdsOfRun(messages, a, i);
  }

  method NormalizeToolCallIds(messages: seq<AgentMessage>) returns (normalized: seq<AgentMessage>, renamed: nat)
    ensures normalized == Normalize(messages) && renamed == RenamedCount(messages)
  {
    var reserved := CollectIds(messages);
    var s := NamingState(reserved, {}, 1, 0);
    normalized := [];
    var i: nat := 0;
    assert s == Start(messages);
    while i < |messages|
      invariant 0 <= i <= |messages|
      invariant s == Named(Start(messages), Ids(messages, i))
      invariant normalized == Normalized(messages, i)
      invariant i < |messages| && messages[i].ToolResult? ==> Head(messages, i).None?
    {
      hide *;
      if !messages[i].Assistant? {
        PassBy(messages, i);
        normalized := normalized + [messages[i]];
        i := i + 1;
      } else {
        s, normalized, i := NormalizeTurn(messages, i, s, normalized);
      }
    }
    renamed := s.renamed;
  }
}

/** What normalizing a provider-visible history does to its messages (src/history.rs). */
module History {
  import opened Wrappers
  import opened Transcript
  import opened Naming

  // ----- the transcript

  function IdsOf(message: AgentMessage): seq<string> {
    CallIds(ToolCalls(message))
  }

  /** The call ids of the first n messages, in order. */
  function Ids(messages: seq<AgentMessage>, n: nat): seq<string>
    requires n <= |messages|
  {
    if n == 0 then [] else Ids(messages, n - 1) + IdsOf(messages[n - 1])
  }

  function MentionedIn(message: AgentMessage): set<string> {
    if message.ToolResult? then {message.toolCallId} else IdSet(IdsOf(message))
  }

  /** Every id the first n messages mention, in calls or results. */
  function Mentioned(messages: seq<AgentMessage>, n: nat): set<string>
    requires n <= |messages|
  {
    if n == 0 then {} else Mentioned(messages, n - 1) + MentionedIn(messages[n - 1])
  }

  function Start(messages: seq<AgentMessage>): NamingState {
    NamingState(Mentioned(messages, |messages|), {}, 1, 0)
  }

  /** How many call blocks are among the first n. */
  function CallBlocks(blocks: seq<AssistantBlock>, n: nat): nat
    requires n <= |blocks|
  {
    if n == 0 then 0 else CallBlocks(blocks, n - 1) + (if blocks[n - 1].Call? then 1 else 0)
  }

  /** The first n blocks with the k-th call renamed to the k-th wire id. */
  function Relabel(blocks: seq<AssistantBlock>, wires: seq<string>, n: nat): (r: seq<AssistantBlock>)
    requires n <= |blocks| && CallBlocks(blocks, n) <= |wires|
    ensures |r| == n
  {
    if n == 0 then []
    else
      var block := blocks[n - 1];
      Relabel(blocks, wires, n - 1)
        + [if block.Call? then Call(block.call.(id := wires[CallBlocks(blocks, n - 1)])) else block]
  }

  lemma {:induction false} BlockCallsAppend(a: seq<AssistantBlock>, b: seq<AssistantBlock>)
    ensures BlockCalls(a + b) == BlockCalls(a) + BlockCalls(b)
  {
    if a == [] {
      NothingAdded(b);
      NothingAdded(BlockCalls(b));
    } else {
      assert (a + b)[1..] == a[1..] + b && (a + b)[0] == a[0];
      BlockCallsAppend(a[1..], b);
      var first := if a[0].Call? then [a[0].call] else [];
      assert first + (BlockCalls(a[1..]) + BlockCalls(b)) == (first + BlockCalls(a[1..])) + BlockCalls(b);
    }
  }

  lemma BlockCallsSnoc(blocks: seq<AssistantBlock>, block: AssistantBlock)
    ensures BlockCalls(blocks + [block]) == BlockCalls(blocks) + (if block.Call? then [block.call] else [])
  {
    BlockCallsAppend(blocks, [block]);
    assert BlockCalls([]) == [];
  }

  lemma {:induction false} CallBlocksCount(blocks: seq<AssistantBlock>, n: nat)
    requires n <= |blocks|
    ensures CallBlocks(blocks, n) == |BlockCalls(blocks[..n])|
    decreases n
  {
    if n > 0 {
      CallBlocksCount(blocks, n - 1);
      assert blocks[..n] == blocks[..n - 1] + [blocks[n - 1]];
      BlockCallsSnoc(blocks[..n - 1], blocks[n - 1]);
    }
  }

  lemma CallBlocksOf(message: AgentMessage)
    requires message.Assistant?
    ensures CallBlocks(message.blocks, |message.blocks|) == |IdsOf(message)|
  {
    CallBlocksCount(message.blocks, |message.blocks|);
    assert message.blocks[..|message.blocks|] == message.blocks;
  }

  /** The wire ids of the calls of message i. */
  function TurnWires(messages: seq<AgentMessage>, i: nat): (r: seq<string>)
    requires i < |messages|
    ensures |r| == |IdsOf(messages[i])|
  {
    Wires(Named(Start(messages), Ids(messages, i)), IdsOf(messages[i]))
  }

  /** The assistant message whose run of results position n continues, if any. */
  function Head(messages: seq<AgentMessage>, n: nat): (a: Option<nat>)
    requires n <= |messages|
    ensures a.Some? ==> a.value < n && messages[a.value].Assistant?
  {
    if n == 0 then None
    else if messages[n - 1].Assistant? then Some(n - 1)
    else if messages[n - 1].ToolResult? then Head(messages, n - 1)
    else None
  }

  /** The results for the id at positions lo .. hi. */
  function CountResults(messages: seq<AgentMessage>, lo: nat, hi: nat, id: string): nat
    requires lo <= hi <= |messages|
    decreases hi
  {
    if lo == hi then 0
    else CountResults(messages, lo, hi - 1, id)
         + (if messages[hi - 1].ToolResult? && messages[hi - 1].toolCallId == id then 1 else 0)
  }

  /** The wire ids of the calls that carried the id, in order. */
  function Queue(ids: seq<string>, wires: seq<string>, id: string): seq<string>
    requires |ids| == |wires|
  {
    if ids == [] then []
    else
      var n := |ids| - 1;
      Queue(ids[..n], wires[..n], id) + (if ids[n] == id then [wires[n]] else [])
  }

  /** The k-th result for an id, after its assistant message, gets the wire id of the k-th call that carried it. */
  function ResultWire(messages: seq<AgentMessage>, i: nat): string
    requires i < |messages| && messages[i].ToolResult?
  {
    var id := messages[i].toolCallId;
    match Head(messages, i)
    case None => id
    case Some(a) =>
      var queue := Queue(IdsOf(messages[a]), TurnWires(messages, a), id);
      var k := CountResults(messages, a + 1, i, id);
      if k < |queue| then queue[k] else id
  }

  function NormalizedAt(messages: seq<AgentMessage>, i: nat): AgentMessage
    requires i < |messages|
  {
    var message := messages[i];
    match message
    case Assistant(blocks, stopReason) =>
      CallBlocksOf(message);
      Assistant(Relabel(blocks, TurnWires(messages, i), |blocks|), stopReason)
    case ToolResult(_, _, _, _, _) => message.(toolCallId := ResultWire(messages, i))
    case _ => message
  }

  function Normalized(messages: seq<AgentMessage>, n: nat): (r: seq<AgentMessage>)
    requires n <= |messages|
    ensures |r| == n
  {
    if n == 0 then [] else Normalized(messages, n - 1) + [NormalizedAt(messages, n - 1)]
  }

  function Normalize(messages: seq<AgentMessage>): seq<AgentMessage> {
    Normalized(messages, |messages|)
  }

  function RenamedCount(messages: seq<AgentMessage>): nat {
    Named(Start(messages), Ids(messages, |messages|)).renamed
  }

  // ----- what normalization does to ids

  lemma {:induction false} NormalizedIndex(messages: seq<AgentMessage>, n: nat, i: nat)
    requires i < n <= |messages|
    ensures Normalized(messages, n)[i] == NormalizedAt(messages, i)
    decreases n
  {
    hide NormalizedAt;
    if i < n - 1 {
      NormalizedIndex(messages, n - 1, i);
    }
  }

  lemma CallIdsSnoc(calls: seq<ToolCall>, call: ToolCall)
    ensures CallIds(calls + [call]) == CallIds(calls) + [call.id]
  {
  }

  lemma {:induction false} RelabelIds(blocks: seq<AssistantBlock>, wires: seq<string>, n: nat)
    requires n <= |blocks| && CallBlocks(blocks, n) <= |wires|
    ensures CallIds(BlockCalls(Relabel(blocks, wires, n))) == wires[..CallBlocks(blocks, n)]
    decreases n
  {
    if n > 0 {
      var before, block := Relabel(blocks, wires, n - 1), Relabel(blocks, wires, n)[n - 1];
      RelabelIds(blocks, wires, n - 1);
      BlockCallsSnoc(before, block);
      if block.Call? {
        CallIdsSnoc(BlockCalls(before), block.call);
      } else {
        NothingAdded(BlockCalls(before));
      }
    }
  }

  lemma NormalizedIds(messages: seq<AgentMessage>, i: nat)
    requires i < |messages|
    ensures IdsOf(NormalizedAt(messages, i)) == TurnWires(messages, i)
  {
    var message := messages[i];
    if message.Assistant? {
      CallBlocksOf(message);
      RelabelIds(message.blocks, TurnWires(messages, i), |message.blocks|);
      var wires := TurnWires(messages, i);
      hide TurnWires, Relabel, BlockCalls;
      assert wires[..|wires|] == wires;
    }
  }

  lemma TurnWiresNext(messages: seq<AgentMessage>, i: nat)
    requires i < |messages|
    ensures Wires(Start(messages), Ids(messages, i + 1))
            == Wires(Start(messages), Ids(messages, i)) + TurnWires(messages, i)
  {
    NamedAppend(Start(messages), Ids(messages, i), IdsOf(messages[i]));
  }

  /** The call ids of the normalized transcript are the wire ids, in order. */
  lemma {:induction false} IdsOfNormalized(messages: seq<AgentMessage>, n: nat)
    requires n <= |messages|
    ensures Ids(Normalize(messages), n) == Wires(Start(messages), Ids(messages, n))
    decreases n
  {
    hide NormalizedAt, Normalized, TurnWires, Start, IdsOf, Named, WireOf;
    if n > 0 {
      IdsOfNormalized(messages, n - 1);
      NormalizedIndex(messages, |messages|, n - 1);
      NormalizedIds(messages, n - 1);
      TurnWiresNext(messages, n - 1);
      hide Wires;
    }
  }

  lemma {:induction false} IdsAreMentioned(messages: seq<AgentMessage>, n: nat)
    requires n <= |messages|
    ensures IdSet(Ids(messages, n)) <= Mentioned(messages, n)
    decreases n
  {
    hide IdsOf, MentionedIn;
    if n > 0 {
      hide IdSet;
      IdsAreMentioned(messages, n - 1);
      IdSetAppend(Ids(messages, n - 1), IdsOf(messages[n - 1]));
      CallsAreMentioned(messages[n - 1]);
    }
  }

  lemma CallsAreMentioned(message: AgentMessage)
    ensures IdSet(IdsOf(message)) <= MentionedIn(message)
  {
    assert message.ToolResult? ==> IdsOf(message) == [];
  }

  lemma {:induction false} IdSetAppend(a: seq<string>, b: seq<string>)
    ensures IdSet(a + b) == IdSet(a) + IdSet(b)
    decreases |b|
  {
    if b == [] {
      NothingAdded(a);
    } else {
      IdSetAppend(a, b[..|b| - 1]);
      assert (a + b)[..|a + b| - 1] == a + b[..|b| - 1];
    }
  }

  lemma {:induction false} MentionedGrows(messages: seq<AgentMessage>, n: nat, m: nat)
    requires n <= m <= |messages|
    ensures Mentioned(messages, n) <= Mentioned(messages, m)
    decreases m
  {
    if n < m {
      MentionedGrows(messages, n, m - 1);
    }
  }

  lemma StartInitial(messages: seq<AgentMessage>, n: nat)
    requires n <= |messages|
    ensures Initial(Start(messages), Ids(messages, n))
  {
    IdsAreMentioned(messages, n);
    MentionedGrows(messages, n, |messages|);
  }

  /**
   The call ids of a normalized transcript are pairwise distinct; exactly as many were replaced
   as there are calls beyond the distinct original ids, and the suffix counter has tried no more
   candidates than there are replacements and ids mentioned. The first call with an id keeps it;
   a later one gets a candidate that no message of the transcript mentions.
   */
  lemma NormalizationLaws(messages: seq<AgentMessage>)
    ensures var before, after := Ids(messages, |messages|), Ids(Normalize(messages), |messages|);
            var s := Named(Start(messages), Ids(messages, |messages|));
            && |after| == |before| && Distinct(after)
            && RenamedCount(messages) == |before| - |IdSet(before)|
            && s.next - 1 <= RenamedCount(messages) + |Mentioned(messages, |messages|)|
            && (forall k :: 0 <= k < |before| ==>
                  if before[k] in before[..k]
                    then after[k] !in Mentioned(messages, |messages|) && CandidateShaped(after[k])
                  else after[k] == before[k])
  {
    IdsOfNormalized(messages, |messages|);
    StartInitial(messages, |messages|);
    WireLaws(Start(messages), Ids(messages, |messages|));
    SuffixBound(Start(messages), Ids(messages, |messages|));
    assert Start(messages).reserved == Mentioned(messages, |messages|);
    hide Ids, Wires, Named, Mentioned, IdSet, CandidateShaped, Normalize, Initial;
  }

  // ----- what normalization leaves alone

  predicate SameBlockButId(a: AssistantBlock, b: AssistantBlock) {
    if a.Call? then b.Call? && b.call == a.call.(id := b.call.id) else a == b
  }

  predicate SameButIds(a: AgentMessage, b: AgentMessage) {
    match a
    case Assistant(blocks, stopReason) =>
      b.Assistant? && b.stopReason == stopReason && |b.blocks| == |blocks|
      && forall k :: 0 <= k < |blocks| ==> SameBlockButId(blocks[k], b.blocks[k])
    case ToolResult(_, _, _, _, _) => b.ToolResult? && b == a.(toolCallId := b.toolCallId)
    case _ => a == b
  }

  lemma {:induction false} RelabelKeeps(blocks: seq<AssistantBlock>, wires: seq<string>, n: nat)
    requires n <= |blocks| && CallBlocks(blocks, n) <= |wires|
    ensures forall k :: 0 <= k < n ==> SameBlockButId(blocks[k], Relabel(blocks, wires, n)[k])
    decreases n
  {
    if n > 0 {
      RelabelKeeps(blocks, wires, n - 1);
    }
  }

  /** Nothing but ids changes: every message keeps its role, its place, its blocks and all its other fields. */
  lemma OnlyIdsChange(messages: seq<AgentMessage>)
    ensures |Normalize(messages)| == |messages|
    ensures forall i :: 0 <= i < |messages| ==> SameButIds(messages[i], Normalize(messages)[i])
  {
    forall i: nat | i < |messages| ensures SameButIds(messages[i], Normalize(messages)[i]) {
      NormalizedIndex(messages, |messages|, i);
      if messages[i].Assistant? {
        CallBlocksOf(messages[i]);
        RelabelKeeps(messages[i].blocks, TurnWires(messages, i), |messages[i].blocks|);
      }
      hide Relabel, TurnWires, ResultWire;
    }
  }

  // ----- idempotence

  lemma {:induction false} IdsSplit(messages: seq<AgentMessage>, i: nat, n: nat) returns (rest: seq<string>)
    requires i < n <= |messages|
    ensures Ids(messages, n) == Ids(messages, i) + IdsOf(messages[i]) + rest
    decreases n
  {
    hide IdsOf;
    if n == i + 1 {
      rest := [];
      NothingAdded(Ids(messages, n));
    } else {
      rest := IdsSplit(messages, i, n - 1);
      Associate(Ids(messages, i) + IdsOf(messages[i]), rest, IdsOf(messages[n - 1]));
      rest := rest + IdsOf(messages[n - 1]);
    }
  }

  lemma DistinctPrefix(a: seq<string>, b: seq<string>, c: seq<string>)
    requires Distinct(a + b + c)
    ensures Distinct(a) && Distinct(a + b)
  {
    forall i, j | 0 <= i < j < |a + b| ensures (a + b)[i] != (a + b)[j] {
      assert (a + b + c)[i] == (a + b)[i] && (a + b + c)[j] == (a + b)[j];
    }
    forall i, j | 0 <= i < j < |a| ensures a[i] != a[j] {
      assert (a + b)[i] == a[i] && (a + b)[j] == a[j];
    }
  }

  lemma DistinctSoFar(messages: seq<AgentMessage>, i: nat)
    requires Distinct(Ids(messages, |messages|)) && i < |messages|
    ensures Distinct(Ids(messages, i)) && Distinct(Ids(messages, i + 1))
    ensures Ids(messages, i + 1) == Ids(messages, i) + IdsOf(messages[i])
  {
    hide IdsOf, Distinct;
    var rest := IdsSplit(messages, i, |messages|);
    DistinctPrefix(Ids(messages, i), IdsOf(messages[i]), rest);
  }

  lemma DistinctTurn(messages: seq<AgentMessage>, i: nat)
    requires Distinct(Ids(messages, |messages|)) && i < |messages|
    ensures TurnWires(messages, i) == IdsOf(messages[i])
  {
    hide *;
    DistinctSoFar(messages, i);
    StartInitial(messages, i);
    StartInitial(messages, i + 1);
    DistinctKept(Start(messages), Ids(messages, i));
    DistinctKept(Start(messages), Ids(messages, i + 1));
    TurnWiresNext(messages, i);
    SameTail(Ids(messages, i), TurnWires(messages, i), IdsOf(messages[i]));
  }

  lemma SameTail<T>(a: seq<T>, b: seq<T>, c: seq<T>)
    requires a + b == a + c
    ensures b == c
  {
    assert (a + b)[|a|..] == b && (a + c)[|a|..] == c;
  }

  lemma {:induction false} RelabelSame(blocks: seq<AssistantBlock>, wires: seq<string>, n: nat)
    requires n <= |blocks| && CallBlocks(blocks, n) <= |wires|
    requires wires[..CallBlocks(blocks, n)] == CallIds(BlockCalls(blocks[..n]))
    ensures Relabel(blocks, wires, n) == blocks[..n]
    decreases n
  {
    if n > 0 {
      var c := CallBlocks(blocks, n - 1);
      assert blocks[..n] == blocks[..n - 1] + [blocks[n - 1]];
      BlockCallsSnoc(blocks[..n - 1], blocks[n - 1]);
      CallBlocksCount(blocks, n - 1);
      var ids := CallIds(BlockCalls(blocks[..n - 1]));
      if blocks[n - 1].Call? {
        CallIdsSnoc(BlockCalls(blocks[..n - 1]), blocks[n - 1].call);
        assert wires[..c] == wires[..c + 1][..c] && (ids + [blocks[n - 1].call.id])[..c] == ids;
        assert wires[c] == wires[..c + 1][c];
      } else {
        NothingAdded(BlockCalls(blocks[..n - 1]));
      }
      RelabelSame(blocks, wires, n - 1);
    }
  }

  lemma {:induction false} QueueOfSame(ids: seq<string>, id: string)
    ensures forall k :: 0 <= k < |Queue(ids, ids, id)| ==> Queue(ids, ids, id)[k] == id
    decreases |ids|
  {
    if ids != [] {
      QueueOfSame(ids[..|ids| - 1], id);
    }
  }

  lemma AssistantUnchanged(message: AgentMessage)
    requires message.Assistant?
    ensures CallBlocks(message.blocks, |message.blocks|) == |IdsOf(message)|
    ensures Relabel(message.blocks, IdsOf(message), |message.blocks|) == message.blocks
  {
    CallBlocksOf(message);
    assert message.blocks[..|message.blocks|] == message.blocks;
    assert IdsOf(message)[..|IdsOf(message)|] == IdsOf(message);
    RelabelSame(message.blocks, IdsOf(message), |message.blocks|);
  }

  lemma DistinctUnchangedAt(messages: seq<AgentMessage>, i: nat)
    requires Distinct(Ids(messages, |messages|)) && i < |messages|
    ensures NormalizedAt(messages, i) == messages[i]
  {
    hide Relabel, TurnWires, CallBlocks, Queue, IdsOf, CountResults, Ids, Distinct, Head;
    if messages[i].Assistant? {
      DistinctTurn(messages, i);
      AssistantUnchanged(messages[i]);
    } else if messages[i].ToolResult? && Head(messages, i).Some? {
      DistinctTurn(messages, Head(messages, i).value);
      QueueOfSame(IdsOf(messages[Head(messages, i).value]), messages[i].toolCallId);
    }
  }

  lemma {:induction false} AllUnchanged(messages: seq<AgentMessage>, n: nat)
    requires Distinct(Ids(messages, |messages|)) && n <= |messages|
    ensures Normalized(messages, n) == messages[..n]
    decreases n
  {
    hide NormalizedAt, Ids, Distinct;
    if n > 0 {
      AllUnchanged(messages, n - 1);
      DistinctUnchangedAt(messages, n - 1);
      assert messages[..n] == messages[..n - 1] + [messages[n - 1]];
    }
  }

  /** A transcript whose call ids are already distinct is left exactly as it is, with nothing renamed. */
  lemma DistinctUnchanged(messages: seq<AgentMessage>)
    requires Distinct(Ids(messages, |messages|))
    ensures Normalize(messages) == messages && RenamedCount(messages) == 0
  {
    AllUnchanged(messages, |messages|);
    assert messages[..|messages|] == messages;
    StartInitial(messages, |messages|);
    DistinctKept(Start(messages), Ids(messages, |messages|));
  }

  /** Normalizing again changes nothing. */
  lemma Idempotent(messages: seq<AgentMessage>)
    ensures Normalize(Normalize(messages)) == Normalize(messages)
    ensures RenamedCount(Normalize(messages)) == 0
  {
    NormalizationLaws(messages);
    DistinctUnchanged(Normalize(messages));
  }

  // ----- stability under appended messages

  ghost predicate AgreeOnNames(s: NamingState, t: NamingState) {
    && s.used == t.used && s.next == t.next && s.renamed == t.renamed
    && forall k: nat :: Candidate(k) in s.reserved <==> Candidate(k) in t.reserved
  }

  lemma AssignAgrees(s: NamingState, t: NamingState, id: string)
    requires AgreeOnNames(s, t)
    ensures WireOf(s, id) == WireOf(t, id) && AgreeOnNames(Assign(s, id), Assign(t, id))
  {
    SameFirstFree(s.reserved, t.reserved, s.next);
    hide FirstFree, Candidate;
  }

  lemma {:induction false} NamedAgrees(s: NamingState, t: NamingState, ids: seq<string>)
    requires AgreeOnNames(s, t)
    ensures Wires(s, ids) == Wires(t, ids) && AgreeOnNames(Named(s, ids), Named(t, ids))
    decreases |ids|
  {
    hide AgreeOnNames, WireOf, Assign;
    if ids != [] {
      NamedAgrees(s, t, ids[..|ids| - 1]);
      AssignAgrees(Named(s, ids[..|ids| - 1]), Named(t, ids[..|ids| - 1]), ids[|ids| - 1]);
    }
  }

  lemma {:induction false} MentionedAppend(messages: seq<AgentMessage>, more: seq<AgentMessage>, n: nat)
    requires n <= |more|
    ensures Mentioned(messages + more, |messages| + n) == Mentioned(messages, |messages|) + Mentioned(more, n)
    decreases n
  {
    hide MentionedIn;
    if n == 0 {
      MentionedPrefix(messages, more, |messages|);
    } else {
      MentionedAppend(messages, more, n - 1);
      assert (messages + more)[|messages| + n - 1] == more[n - 1];
    }
  }

  lemma {:induction false} MentionedPrefix(messages: seq<AgentMessage>, more: seq<AgentMessage>, n: nat)
    requires n <= |messages|
    ensures Mentioned(messages + more, n) == Mentioned(messages, n)
    decreases n
  {
    hide MentionedIn;
    if n > 0 {
      MentionedPrefix(messages, more, n - 1);
    }
  }

  lemma {:induction false} IdsPrefix(messages: seq<AgentMessage>, more: seq<AgentMessage>, n: nat)
    requires n <= |messages|
    ensures Ids(messages + more, n) == Ids(messages, n)
    decreases n
  {
    hide IdsOf;
    if n > 0 {
      IdsPrefix(messages, more, n - 1);
    }
  }

  lemma {:induction false} HeadPrefix(messages: seq<AgentMessage>, more: seq<AgentMessage>, n: nat)
    requires n <= |messages|
    ensures Head(messages + more, n) == Head(messages, n)
    decreases n
  {
    if n > 0 {
      HeadPrefix(messages, more, n - 1);
      assert (messages + more)[n - 1] == messages[n - 1];
    }
  }

  lemma {:induction false} ResultsPrefix(messages: seq<AgentMessage>, more: seq<AgentMessage>, lo: nat, hi: nat,
                                         id: string)
    requires lo <= hi <= |messages|
    ensures CountResults(messages + more, lo, hi, id) == CountResults(messages, lo, hi, id)
    decreases hi
  {
    if lo < hi {
      ResultsPrefix(messages, more, lo, hi - 1, id);
      assert (messages + more)[hi - 1] == messages[hi - 1];
    }
  }

  /** No message mentions an id of the generated form. */
  ghost predicate NoCandidates(messages: seq<AgentMessage>) {
    forall k: nat :: Candidate(k) !in Mentioned(messages, |messages|)
  }

  lemma TurnWiresPrefix(messages: seq<AgentMessage>, more: seq<AgentMessage>, i: nat)
    requires NoCandidates(more) && i < |messages|
    ensures TurnWires(messages + more, i) == TurnWires(messages, i)
  {
    var longer := messages + more;
    assert longer[i] == messages[i];
    hide Start, Named, Wires, IdsOf, Ids, AgreeOnNames, NoCandidates;
    IdsPrefix(messages, more, i);
    StartsAgree(messages, more);
    NamedAgrees(Start(longer), Start(messages), Ids(messages, i));
    NamedAgrees(Named(Start(longer), Ids(messages, i)), Named(Start(messages), Ids(messages, i)), IdsOf(messages[i]));
  }

  lemma StartsAgree(messages: seq<AgentMessage>, more: seq<AgentMessage>)
    requires NoCandidates(more)
    ensures AgreeOnNames(Start(messages + more), Start(messages))
  {
    hide Mentioned, Candidate;
    MentionedAppend(messages, more, |more|);
  }

  lemma ResultWirePrefix(messages: seq<AgentMessage>, more: seq<AgentMessage>, i: nat)
    requires NoCandidates(more) && i < |messages| && messages[i].ToolResult?
    ensures (messages + more)[i] == messages[i] && ResultWire(messages + more, i) == ResultWire(messages, i)
  {
    var longer := messages + more;
    assert longer[i] == messages[i];
    HeadPrefix(messages, more, i);
    if Head(messages, i).Some? {
      var a := Head(messages, i).value;
      assert longer[a] == messages[a];
      TurnWiresPrefix(messages, more, a);
      ResultsPrefix(messages, more, a + 1, i, messages[i].toolCallId);
    }
    hide TurnWires, IdsOf, CountResults, Queue, Head, NoCandidates;
  }

  lemma NormalizedAtPrefix(messages: seq<AgentMessage>, more: seq<AgentMessage>, i: nat)
    requires NoCandidates(more) && i < |messages|
    ensures NormalizedAt(messages + more, i) == NormalizedAt(messages, i)
  {
    assert (messages + more)[i] == messages[i];
    TurnWiresPrefix(messages, more, i);
    if messages[i].ToolResult? {
      ResultWirePrefix(messages, more, i);
    }
    hide TurnWires, ResultWire, NoCandidates, Relabel;
  }

  lemma {:induction false} NormalizedPrefix(messages: seq<AgentMessage>, more: seq<AgentMessage>, n: nat)
    requires NoCandidates(more) && n <= |messages|
    ensures Normalized(messages + more, n) == Normalized(messages, n)
    decreases n
  {
    hide NormalizedAt, NoCandidates;
    if n > 0 {
      NormalizedPrefix(messages, more, n - 1);
      NormalizedAtPrefix(messages, more, n - 1);
    }
  }

  lemma {:induction false} NormalizedTake(messages: seq<AgentMessage>, n: nat, m: nat)
    requires n <= m <= |messages|
    ensures Normalized(messages, m)[..n] == Normalized(messages, n)
    decreases m
  {
    hide NormalizedAt;
    if n < m {
      NormalizedTake(messages, n, m - 1);
      assert Normalized(messages, m)[..n] == Normalized(messages, m - 1)[..n];
    }
  }

  /**
   What a provider has been sent stays byte for byte the same as the transcript grows by messages
   without generated ids.
   */
  lemma PrefixStable(messages: seq<AgentMessage>, more: seq<AgentMessage>)
    requires NoCandidates(more)
    ensures |Normalize(messages + more)| == |messages| + |more|
    ensures Normalize(messages + more)[..|messages|] == Normalize(messages)
  {
    NormalizedPrefix(messages, more, |messages|);
    NormalizedTake(messages + more, |messages|, |messages + more|);
  }
}

/**
 What normalizing does to ids, told by the blocks and results of the transcript alone
 (src/history.rs): which calls get a replacement, which candidate it is, and which results follow
 their call.
 */
module Renaming {
  import opened Wrappers
  import opened Transcript
  import opened Naming
  import opened History
  import opened Pairing

  // ----- calls and results in place

  /** Block p of message i is a tool call. */
  predicate IsCall(messages: seq<AgentMessage>, i: nat, p: nat) {
    i < |messages| && messages[i].Assistant? && p < |messages[i].blocks| && messages[i].blocks[p].Call?
  }

  function IdAt(messages: seq<AgentMessage>, i: nat, p: nat): string
    requires IsCall(messages, i, p)
  {
    messages[i].blocks[p].call.id
  }

  predicate IsResult(messages: seq<AgentMessage>, j: nat) {
    j < |messages| && messages[j].ToolResult?
  }

  predicate Before(i: nat, p: nat, j: nat, q: nat) {
    i < j || (i == j && p < q)
  }

  /** Some call or result of the transcript carries the id. */
  ghost predicate Mentions(messages: seq<AgentMessage>, id: string) {
    || (exists i: nat, p: nat :: IsCall(messages, i, p) && IdAt(messages, i, p) == id)
    || (exists j: nat :: IsResult(messages, j) && messages[j].toolCallId == id)
  }

  /** A call before block p of message i carries the id. */
  ghost predicate CarriedBefore(messages: seq<AgentMessage>, i: nat, p: nat, id: string) {
    exists j: nat, q: nat :: IsCall(messages, j, q) && Before(j, q, i, p) && IdAt(messages, j, q) == id
  }

  // ----- places in the list of all call ids

  /** How many calls stand before block p of message i. */
  function Place(messages: seq<AgentMessage>, i: nat, p: nat): nat
    requires IsCall(messages, i, p)
  {
    |Ids(messages, i)| + CallBlocks(messages[i].blocks, p)
  }

  lemma {:induction false} BlockCallAt(blocks: seq<AssistantBlock>, n: nat, p: nat)
    requires p < n <= |blocks| && blocks[p].Call?
    ensures CallBlocks(blocks, p) < CallBlocks(blocks, n) == |BlockCalls(blocks[..n])|
    ensures BlockCalls(blocks[..n])[CallBlocks(blocks, p)] == blocks[p].call
    decreases n
  {
    CallBlocksCount(blocks, n);
    CallBlocksCount(blocks, n - 1);
    assert blocks[..n] == blocks[..n - 1] + [blocks[n - 1]];
    BlockCallsSnoc(blocks[..n - 1], blocks[n - 1]);
    if p < n - 1 {
      BlockCallAt(blocks, n - 1, p);
    }
  }

  lemma CallInBlock(messages: seq<AgentMessage>, a: nat, p: nat)
    requires IsCall(messages, a, p)
    ensures var ids, c := IdsOf(messages[a]), CallBlocks(messages[a].blocks, p);
            c < |ids| && ids[c] == IdAt(messages, a, p)
  {
    var blocks := messages[a].blocks;
    BlockCallAt(blocks, |blocks|, p);
    assert blocks[..|blocks|] == blocks;
  }

  lemma {:induction false} IdsKeep(messages: seq<AgentMessage>, i: nat, n: nat)
    requires i <= n <= |messages|
    ensures |Ids(messages, i)| <= |Ids(messages, n)| && Ids(messages, n)[..|Ids(messages, i)|] == Ids(messages, i)
    decreases n
  {
    hide IdsOf;
    if i < n {
      IdsKeep(messages, i, n - 1);
    }
  }

  /** A call stands at its place among all call ids, before everything behind its message. */
  lemma PlaceHolds(messages: seq<AgentMessage>, i: nat, p: nat, n: nat)
    requires IsCall(messages, i, p) && i < n <= |messages|
    ensures Place(messages, i, p) < |Ids(messages, i + 1)| <= |Ids(messages, n)|
    ensures Ids(messages, n)[Place(messages, i, p)] == IdAt(messages, i, p)
  {
    hide Ids, IdsOf, CallBlocks;
    CallInBlock(messages, i, p);
    IdsNext(messages, i);
    IdsKeep(messages, i + 1, n);
    assert Ids(messages, n)[..|Ids(messages, i + 1)|][Place(messages, i, p)] == IdAt(messages, i, p);
  }

  lemma PlacesOrdered(messages: seq<AgentMessage>, i: nat, p: nat, j: nat, q: nat)
    requires IsCall(messages, i, p) && IsCall(messages, j, q) && Before(i, p, j, q)
    ensures Place(messages, i, p) < Place(messages, j, q)
  {
    if i < j {
      PlaceHolds(messages, i, p, j);
    } else {
      BlockCallAt(messages[i].blocks, q, p);
    }
  }

  lemma {:induction false} BlockAt(blocks: seq<AssistantBlock>, n: nat, c: nat) returns (p: nat)
    requires n <= |blocks| && c < CallBlocks(blocks, n)
    ensures p < n && blocks[p].Call? && CallBlocks(blocks, p) == c
    decreases n
  {
    if c < CallBlocks(blocks, n - 1) {
      p := BlockAt(blocks, n - 1, c);
    } else {
      p := n - 1;
    }
  }

  lemma CallingIsAssistant(message: AgentMessage)
    ensures IdsOf(message) != [] ==> message.Assistant?
  {
  }

  /** Every place is some call's. */
  lemma {:induction false} CallAt(messages: seq<AgentMessage>, n: nat, k: nat) returns (i: nat, p: nat)
    requires n <= |messages| && k < |Ids(messages, n)|
    ensures i < n && IsCall(messages, i, p) && Place(messages, i, p) == k
    decreases n
  {
    hide IdsOf;
    IdsNext(messages, n - 1);
    if k < |Ids(messages, n - 1)| {
      i, p := CallAt(messages, n - 1, k);
    } else {
      i := n - 1;
      CallingIsAssistant(messages[i]);
      hide Ids, CallBlocks;
      CallBlocksOf(messages[i]);
      p := BlockAt(messages[i].blocks, |messages[i].blocks|, k - |Ids(messages, i)|);
    }
  }

  lemma CarriedAtPlace(messages: seq<AgentMessage>, i: nat, p: nat, id: string)
    requires IsCall(messages, i, p)
    ensures Place(messages, i, p) < |Ids(messages, |messages|)|
    ensures CarriedBefore(messages, i, p, id) <==> id in Ids(messages, |messages|)[..Place(messages, i, p)]
  {
    var ids, place := Ids(messages, |messages|), Place(messages, i, p);
    PlaceHolds(messages, i, p, |messages|);
    if CarriedBefore(messages, i, p, id) {
      var j: nat, q: nat :| IsCall(messages, j, q) && Before(j, q, i, p) && IdAt(messages, j, q) == id;
      PlaceHolds(messages, j, q, |messages|);
      PlacesOrdered(messages, j, q, i, p);
      assert ids[..place][Place(messages, j, q)] == id;
    }
    if id in ids[..place] {
      var k: nat :| k < place && ids[k] == id;
      var j, q := CallAt(messages, |messages|, k);
      PlaceHolds(messages, j, q, |messages|);
      if !Before(j, q, i, p) && (j, q) != (i, p) {
        PlacesOrdered(messages, i, p, j, q);
      }
      assert Before(j, q, i, p);
    }
  }

  predicate ResultCarries(message: AgentMessage, id: string) {
    message.ToolResult? && message.toolCallId == id
  }

  lemma MentionedInMeans(message: AgentMessage, id: string)
    ensures id in MentionedIn(message) <==> id in IdsOf(message) || ResultCarries(message, id)
  {
    InIdSet(IdsOf(message), id);
    assert message.ToolResult? ==> IdsOf(message) == [];
  }

  lemma {:induction false} MentionedMeans(messages: seq<AgentMessage>, n: nat, id: string)
    requires n <= |messages|
    ensures id in Mentioned(messages, n)
            <==> id in Ids(messages, n) || exists j: nat :: j < n && ResultCarries(messages[j], id)
    decreases n
  {
    hide IdsOf, MentionedIn, ResultCarries;
    if n > 0 {
      MentionedMeans(messages, n - 1, id);
      MentionedInMeans(messages[n - 1], id);
    }
  }

  lemma MentionsExactly(messages: seq<AgentMessage>, id: string)
    ensures Mentions(messages, id) <==> id in Mentioned(messages, |messages|)
  {
    MentionedMeans(messages, |messages|, id);
    if i: nat, p: nat :| IsCall(messages, i, p) && IdAt(messages, i, p) == id {
      PlaceHolds(messages, i, p, |messages|);
    }
    if id in Ids(messages, |messages|) {
      var k: nat :| k < |Ids(messages, |messages|)| && Ids(messages, |messages|)[k] == id;
      var i, p := CallAt(messages, |messages|, k);
      PlaceHolds(messages, i, p, |messages|);
    }
    if j: nat :| j < |messages| && ResultCarries(messages[j], id) {
      assert IsResult(messages, j);
    }
  }

  // ----- the calls

  /** The normalized transcript has its calls where the transcript has them, at the same places. */
  lemma SamePlaces(messages: seq<AgentMessage>, i: nat, p: nat)
    ensures |Normalize(messages)| == |messages|
    ensures IsCall(messages, i, p) <==> IsCall(Normalize(messages), i, p)
    ensures IsCall(messages, i, p) ==> Place(Normalize(messages), i, p) == Place(messages, i, p)
  {
    OnlyIdsChange(messages);
    if i < |messages| && messages[i].Assistant? && p <= |messages[i].blocks| {
      var after := Normalize(messages);
      assert SameButIds(messages[i], after[i]);
      IdsOfNormalized(messages, i);
      hide Normalize, Ids, Wires, Start;
      SameCallBlocks(messages[i].blocks, after[i].blocks, p);
    }
  }

  lemma {:induction false} SameCallBlocks(a: seq<AssistantBlock>, b: seq<AssistantBlock>, n: nat)
    requires |a| == |b| && n <= |a| && forall k :: 0 <= k < |a| ==> SameBlockButId(a[k], b[k])
    ensures CallBlocks(a, n) == CallBlocks(b, n)
    decreases n
  {
    if n > 0 {
      SameCallBlocks(a, b, n - 1);
      assert SameBlockButId(a[n - 1], b[n - 1]);
    }
  }

  /** A candidate number that call p of message i must pass over. */
  ghost predicate Unavailable(messages: seq<AgentMessage>, after: seq<AgentMessage>, i: nat, p: nat, m: nat) {
    var candidate := "clark_agent_call_" + Decimal(m);
    Mentions(messages, candidate) || CarriedBefore(after, i, p, candidate)
  }

  /**
   The first call with an id keeps it. A later one gets the candidate with the least number, from
   one on, that the transcript does not mention and no earlier call got.
   */
  ghost predicate NamedAsItShould(messages: seq<AgentMessage>, after: seq<AgentMessage>, i: nat, p: nat)
    requires IsCall(messages, i, p) && IsCall(after, i, p)
  {
    if CarriedBefore(messages, i, p, IdAt(messages, i, p)) then
      exists m: nat ::
        && m >= 1 && IdAt(after, i, p) == "clark_agent_call_" + Decimal(m)
        && !Unavailable(messages, after, i, p, m)
        && forall l: nat :: 1 <= l < m ==> Unavailable(messages, after, i, p, l)
    else IdAt(after, i, p) == IdAt(messages, i, p)
  }

  lemma UnavailableIsTaken(messages: seq<AgentMessage>, i: nat, p: nat, m: nat)
    requires IsCall(messages, i, p)
    ensures var wires := Wires(Start(messages), Ids(messages, |messages|));
            && Place(messages, i, p) < |wires|
            && (Unavailable(messages, Normalize(messages), i, p, m)
                <==> Taken(Start(messages), wires[..Place(messages, i, p)], m))
  {
    var after := Normalize(messages);
    SamePlaces(messages, i, p);
    CarriedAtPlace(after, i, p, Candidate(m));
    IdsOfNormalized(messages, |messages|);
    MentionsExactly(messages, Candidate(m));
    hide Normalize, Ids, Wires, Mentioned, Mentions, CarriedBefore, Place, Decimal;
  }

  lemma CallRenamedExactly(messages: seq<AgentMessage>, i: nat, p: nat)
    requires IsCall(messages, i, p)
    ensures IsCall(Normalize(messages), i, p) && NamedAsItShould(messages, Normalize(messages), i, p)
  {
    var after, s0, ids := Normalize(messages), Start(messages), Ids(messages, |messages|);
    var place, id := Place(messages, i, p), IdAt(messages, i, p);
    SamePlaces(messages, i, p);
    PlaceHolds(messages, i, p, |messages|);
    PlaceHolds(after, i, p, |messages|);
    IdsOfNormalized(messages, |messages|);
    StartInitial(messages, |messages|);
    CarriedAtPlace(messages, i, p, id);
    WireAt(s0, ids, place);
    hide Normalize, Ids, Wires, Start, Place, Taken, Unavailable, CarriedBefore, Initial, Named, Decimal,
         CandidateShaped;
    if CarriedBefore(messages, i, p, id) {
      var m := ReplacementExact(s0, ids, place);
      UnavailableIsTaken(messages, i, p, m);
      forall l: nat | 1 <= l < m ensures Unavailable(messages, after, i, p, l) {
        UnavailableIsTaken(messages, i, p, l);
      }
    }
  }

  /** Every call of every transcript is named as it should be. */
  lemma CallsRenamedExactly(messages: seq<AgentMessage>)
    ensures forall i: nat, p: nat :: IsCall(messages, i, p) <==> IsCall(Normalize(messages), i, p)
    ensures forall i: nat, p: nat :: IsCall(messages, i, p) ==> NamedAsItShould(messages, Normalize(messages), i, p)
  {
    hide Normalize, NamedAsItShould, IsCall;
    forall i: nat, p: nat ensures IsCall(messages, i, p) <==> IsCall(Normalize(messages), i, p) {
      SamePlaces(messages, i, p);
    }
    forall i: nat, p: nat | IsCall(messages, i, p) ensures NamedAsItShould(messages, Normalize(messages), i, p) {
      CallRenamedExactly(messages, i, p);
    }
  }

  // ----- the results

  /** The results for the id behind message a and before message j. */
  ghost function ResultsFor(messages: seq<AgentMessage>, a: nat, j: nat, id: string): set<nat> {
    set l: nat | a < l < j && IsResult(messages, l) && messages[l].toolCallId == id
  }

  /** The calls with the id in message a before block p. */
  ghost function CallsWith(messages: seq<AgentMessage>, a: nat, p: nat, id: string): set<nat> {
    set q: nat | q < p && IsCall(messages, a, q) && IdAt(messages, a, q) == id
  }

  /**
   The result at j and call p of message a belong together: only results stand between them, they
   carry the same id, and as many of these results as of the message's earlier calls carry it too.
   */
  ghost predicate BelongsTo(messages: seq<AgentMessage>, j: nat, a: nat, p: nat) {
    && IsResult(messages, j) && a < j && IsCall(messages, a, p)
    && (forall l: nat :: a < l < j ==> IsResult(messages, l))
    && IdAt(messages, a, p) == messages[j].toolCallId
    && |ResultsFor(messages, a, j, messages[j].toolCallId)| == |CallsWith(messages, a, p, messages[j].toolCallId)|
  }

  lemma {:induction false} ResultsCounted(messages: seq<AgentMessage>, a: nat, j: nat, id: string)
    requires a < j <= |messages|
    ensures |ResultsFor(messages, a, j, id)| == CountResults(messages, a + 1, j, id)
    decreases j
  {
    if j == a + 1 {
      assert ResultsFor(messages, a, j, id) == {};
    } else {
      ResultsCounted(messages, a, j - 1, id);
      var fewer := ResultsFor(messages, a, j - 1, id);
      if messages[j - 1].ToolResult? && messages[j - 1].toolCallId == id {
        assert ResultsFor(messages, a, j, id) == fewer + {j - 1};
      } else {
        assert ResultsFor(messages, a, j, id) == fewer;
      }
    }
  }

  lemma {:induction false} CallsCounted(messages: seq<AgentMessage>, a: nat, p: nat, id: string)
    requires a < |messages| && messages[a].Assistant? && p <= |messages[a].blocks|
    ensures CallBlocks(messages[a].blocks, p) <= |IdsOf(messages[a])|
    ensures |CallsWith(messages, a, p, id)| == CountIn(IdsOf(messages[a]), CallBlocks(messages[a].blocks, p), id)
    decreases p
  {
    var blocks := messages[a].blocks;
    if p == 0 {
      assert CallsWith(messages, a, p, id) == {};
    } else {
      CallsCounted(messages, a, p - 1, id);
      var fewer := CallsWith(messages, a, p - 1, id);
      CallsWithNext(messages, a, p, id);
      hide CallsWith;
      if IsCall(messages, a, p - 1) {
        CallInBlock(messages, a, p - 1);
      }
    }
  }

  lemma CallsWithNext(messages: seq<AgentMessage>, a: nat, p: nat, id: string)
    requires p > 0
    ensures var fewer := CallsWith(messages, a, p - 1, id);
            && p - 1 !in fewer
            && CallsWith(messages, a, p, id)
               == if IsCall(messages, a, p - 1) && IdAt(messages, a, p - 1) == id then fewer + {p - 1} else fewer
  {
  }

  /** The message a run of results goes back to, if there is one, is an assistant message. */
  lemma {:induction false} HeadOfRun(messages: seq<AgentMessage>, n: nat)
    requires n <= |messages| && Head(messages, n).Some?
    ensures var a := Head(messages, n).value;
            a < n && messages[a].Assistant? && forall l: nat :: a < l < n ==> IsResult(messages, l)
    decreases n
  {
    if messages[n - 1].ToolResult? {
      HeadOfRun(messages, n - 1);
    }
  }

  lemma HeadIs(messages: seq<AgentMessage>, j: nat, a: nat)
    requires a < j <= |messages| && messages[a].Assistant? && forall l: nat :: a < l < j ==> IsResult(messages, l)
    ensures Head(messages, j) == Some(a)
  {
    forall l: nat | a < l < j ensures messages[l].ToolResult? {
      assert IsResult(messages, l);
    }
    RunHead(messages, a, j);
  }

  /** The wire id of a call is the one normalization leaves in its block. */
  lemma WireInBlock(messages: seq<AgentMessage>, a: nat, p: nat)
    requires IsCall(messages, a, p)
    ensures IsCall(Normalize(messages), a, p)
    ensures CallBlocks(messages[a].blocks, p) < |TurnWires(messages, a)|
    ensures IdAt(Normalize(messages), a, p) == TurnWires(messages, a)[CallBlocks(messages[a].blocks, p)]
  {
    var after := Normalize(messages);
    SamePlaces(messages, a, p);
    NormalizedIndex(messages, |messages|, a);
    NormalizedIds(messages, a);
    OnlyIdsChange(messages);
    assert SameButIds(messages[a], after[a]);
    assert after[a] == NormalizedAt(messages, a);
    hide Normalize, NormalizedAt, TurnWires, Place, IdsOf;
    SameCallBlocks(messages[a].blocks, after[a].blocks, p);
    CallInBlock(after, a, p);
  }

  lemma ResultFollows(messages: seq<AgentMessage>, j: nat, a: nat, p: nat)
    requires BelongsTo(messages, j, a, p)
    ensures IsCall(Normalize(messages), a, p) && IsResult(Normalize(messages), j)
    ensures Normalize(messages)[j].toolCallId == IdAt(Normalize(messages), a, p)
  {
    var id, c, ids := messages[j].toolCallId, CallBlocks(messages[a].blocks, p), IdsOf(messages[a]);
    HeadIs(messages, j, a);
    ResultsCounted(messages, a, j, id);
    CallsCounted(messages, a, p, id);
    WireInBlock(messages, a, p);
    CallInBlock(messages, a, p);
    assert CountIn(ids, c, id) == CountResults(messages, a + 1, j, id);
    hide ResultsFor, CallsWith, IdsOf, CallBlocks, BelongsTo, CountIn, CountResults;
    QueuePlace(ids, TurnWires(messages, a), id, c);
    ResultInPlace(messages, j);
    hide Normalize, TurnWires, Queue, IsCall, IdAt;
  }

  lemma ResultInPlace(messages: seq<AgentMessage>, j: nat)
    requires IsResult(messages, j)
    ensures IsResult(Normalize(messages), j) && Normalize(messages)[j].toolCallId == ResultWire(messages, j)
  {
    NormalizedIndex(messages, |messages|, j);
    hide ResultWire, Normalized;
  }

  /** Where no call belongs to the result, the results before it have used up all wire ids for its id. */
  lemma QueueUsedUp(messages: seq<AgentMessage>, j: nat, a: nat)
    requires IsResult(messages, j) && a < j && messages[a].Assistant?
    requires forall l: nat :: a < l < j ==> IsResult(messages, l)
    requires forall p: nat :: !BelongsTo(messages, j, a, p)
    ensures |Queue(IdsOf(messages[a]), TurnWires(messages, a), messages[j].toolCallId)|
            <= CountResults(messages, a + 1, j, messages[j].toolCallId)
  {
    hide BelongsTo, TurnWires, Queue, IdsOf, CountIn, CountResults;
    var ids, id := IdsOf(messages[a]), messages[j].toolCallId;
    QueuePlaces(ids, TurnWires(messages, a), id);
    if CountResults(messages, a + 1, j, id) < CountIn(ids, |ids|, id) {
      var p := CallBelonging(messages, j, a);
    }
  }

  lemma StayingWire(messages: seq<AgentMessage>, j: nat)
    requires IsResult(messages, j) && forall a: nat, p: nat :: !BelongsTo(messages, j, a, p)
    ensures ResultWire(messages, j) == messages[j].toolCallId
  {
    hide BelongsTo, TurnWires, Queue, IdsOf, CountResults, Head;
    if Head(messages, j).Some? {
      HeadOfRun(messages, j);
      QueueUsedUp(messages, j, Head(messages, j).value);
    }
  }

  lemma ResultStays(messages: seq<AgentMessage>, j: nat)
    requires IsResult(messages, j) && forall a: nat, p: nat :: !BelongsTo(messages, j, a, p)
    ensures IsResult(Normalize(messages), j) && Normalize(messages)[j] == messages[j]
  {
    StayingWire(messages, j);
    NormalizedIndex(messages, |messages|, j);
    hide BelongsTo, ResultWire, Normalized;
  }

  /** With as many calls of the id as that, the result belongs to one of them. */
  lemma CallBelonging(messages: seq<AgentMessage>, j: nat, a: nat) returns (p: nat)
    requires IsResult(messages, j) && a < j && messages[a].Assistant? && forall l: nat :: a < l < j ==>
             IsResult(messages, l)
    requires CountResults(messages, a + 1, j, messages[j].toolCallId)
             < CountIn(IdsOf(messages[a]), |IdsOf(messages[a])|, messages[j].toolCallId)
    ensures BelongsTo(messages, j, a, p)
  {
    var ids, blocks, id := IdsOf(messages[a]), messages[a].blocks, messages[j].toolCallId;
    var c := CallAtPlace(ids, |ids|, id, CountResults(messages, a + 1, j, id));
    CallBlocksOf(messages[a]);
    p := BlockAt(blocks, |blocks|, c);
    CallInBlock(messages, a, p);
    ResultsCounted(messages, a, j, id);
    CallsCounted(messages, a, p, id);
    hide IdsOf, CountIn, CountResults, CallBlocks, ResultsFor, CallsWith;
  }

  /**
   A result that belongs to a call carries the call's id afterwards, whatever it was; every other
   result stays as it is.
   */
  lemma ResultsFollowExactly(messages: seq<AgentMessage>, j: nat)
    requires IsResult(messages, j)
    ensures IsResult(Normalize(messages), j)
    ensures forall a: nat, p: nat :: BelongsTo(messages, j, a, p) ==>
              IsCall(Normalize(messages), a, p) && Normalize(messages)[j].toolCallId == IdAt(Normalize(messages), a, p)
    ensures (forall a: nat, p: nat :: !BelongsTo(messages, j, a, p)) ==> Normalize(messages)[j] == messages[j]
  {
    hide Normalize, BelongsTo, ResultWire;
    ResultInPlace(messages, j);
    forall a: nat, p: nat | BelongsTo(messages, j, a, p)
      ensures IsCall(Normalize(messages), a, p)
              && Normalize(messages)[j].toolCallId == IdAt(Normalize(messages), a, p)
    {
      ResultFollows(messages, j, a, p);
    }
    if forall a: nat, p: nat :: !BelongsTo(messages, j, a, p) {
      ResultStays(messages, j);
    }
  }
}

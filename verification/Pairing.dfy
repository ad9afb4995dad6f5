/** How normalization pairs the calls of a turn with the results behind it. */
module Pairing {
  import opened Wrappers
  import opened Transcript
  import opened Naming
  import opened History

  // ----- pairing of calls and results

  function CountIn(ids: seq<string>, n: nat, id: string): nat
    requires n <= |ids|
  {
    if n == 0 then 0 else CountIn(ids, n - 1, id) + (if ids[n - 1] == id then 1 else 0)
  }

  lemma {:induction false} CountInPrefix(a: seq<string>, b: seq<string>, n: nat, id: string)
    requires n <= |a| && n <= |b| && a[..n] == b[..n]
    ensures CountIn(a, n, id) == CountIn(b, n, id)
    decreases n
  {
    if n > 0 {
      assert a[..n][n - 1] == b[..n][n - 1];
      assert a[..n - 1] == a[..n][..n - 1] && b[..n - 1] == b[..n][..n - 1];
      CountInPrefix(a, b, n - 1, id);
    }
  }

  /** The queue for an id holds, at place r, the wire id of the call before which r others carried the id. */
  lemma {:induction false} QueuePlaces(ids: seq<string>, wires: seq<string>, id: string)
    requires |ids| == |wires|
    ensures |Queue(ids, wires, id)| == CountIn(ids, |ids|, id)
    decreases |ids|
  {
    if ids != [] {
      var n := |ids| - 1;
      QueuePlaces(ids[..n], wires[..n], id);
      CountInPrefix(ids[..n], ids, n, id);
    }
  }

  lemma {:induction false} QueuePlace(ids: seq<string>, wires: seq<string>, id: string, k: nat)
    requires |ids| == |wires| && k < |ids| && ids[k] == id
    ensures CountIn(ids, k, id) < |Queue(ids, wires, id)|
    ensures Queue(ids, wires, id)[CountIn(ids, k, id)] == wires[k]
    decreases |ids|
  {
    var n := |ids| - 1;
    CountInPrefix(ids[..n], ids, k, id);
    if k < n {
      assert ids[..k] == ids[..n][..k];
      QueuePlace(ids[..n], wires[..n], id, k);
    } else {
      QueuePlaces(ids[..n], wires[..n], id);
      CountInPrefix(ids[..n], ids, n, id);
    }
  }

  /** Place r of an id is taken by some call. */
  lemma {:induction false} CallAtPlace(ids: seq<string>, n: nat, id: string, r: nat) returns (k: nat)
    requires n <= |ids| && r < CountIn(ids, n, id)
    ensures k < n && ids[k] == id && CountIn(ids, k, id) == r
    decreases n
  {
    if ids[n - 1] == id && CountIn(ids, n - 1, id) == r {
      k := n - 1;
    } else {
      k := CallAtPlace(ids, n - 1, id, r);
    }
  }

  lemma {:induction false} ResultAtPlace(messages: seq<AgentMessage>, lo: nat, hi: nat, id: string, r: nat)
      returns (j: nat)
    requires lo <= hi <= |messages| && r < CountResults(messages, lo, hi, id)
    ensures lo <= j < hi && messages[j].ToolResult? && messages[j].toolCallId == id
            && CountResults(messages, lo, j, id) == r
    decreases hi
  {
    var last := messages[hi - 1];
    if last.ToolResult? && last.toolCallId == id && CountResults(messages, lo, hi - 1, id) == r {
      j := hi - 1;
    } else {
      j := ResultAtPlace(messages, lo, hi - 1, id, r);
    }
  }

  lemma {:induction false} PlacesGrow(ids: seq<string>, i: nat, j: nat, id: string)
    requires i <= j <= |ids|
    ensures CountIn(ids, i, id) <= CountIn(ids, j, id)
    ensures i < j && ids[i] == id ==> CountIn(ids, i, id) < CountIn(ids, j, id)
    decreases j
  {
    if i < j {
      PlacesGrow(ids, i, j - 1, id);
    }
  }

  /** A run of results, from the assistant message at a up to b. */
  predicate ResultRun(messages: seq<AgentMessage>, a: nat, b: nat) {
    && a < b <= |messages| && messages[a].Assistant?
    && forall j :: a < j < b ==> messages[j].ToolResult?
  }

  /** Every id occurs as often among the assistant's calls as among the results of its run. */
  ghost predicate AnsweredRun(messages: seq<AgentMessage>, a: nat, b: nat) {
    && ResultRun(messages, a, b)
    && forall id :: CountIn(IdsOf(messages[a]), |IdsOf(messages[a])|, id) == CountResults(messages, a + 1, b, id)
  }

  lemma {:induction false} RunHead(messages: seq<AgentMessage>, a: nat, j: nat)
    requires ResultRun(messages, a, j)
    ensures Head(messages, j) == Some(a)
    decreases j
  {
    if j > a + 1 {
      RunHead(messages, a, j - 1);
    }
  }

  /**
   The result at j and the call k of the assistant at a carry the same id, and as many of the run's
   results as calls carried it before them.
   */
  predicate Matches(messages: seq<AgentMessage>, a: nat, j: nat, k: nat)
    requires a < j < |messages| && k < |IdsOf(messages[a])|
  {
    var ids := IdsOf(messages[a]);
    && messages[j].ToolResult? && messages[j].toolCallId == ids[k]
    && CountResults(messages, a + 1, j, ids[k]) == CountIn(ids, k, ids[k])
  }

  lemma {:induction false} ResultsGrow(messages: seq<AgentMessage>, lo: nat, i: nat, j: nat, id: string)
    requires lo <= i <= j <= |messages|
    ensures CountResults(messages, lo, i, id) <= CountResults(messages, lo, j, id)
    ensures i < j && messages[i].ToolResult? && messages[i].toolCallId == id ==>
              CountResults(messages, lo, i, id) < CountResults(messages, lo, j, id)
    decreases j
  {
    if i < j {
      ResultsGrow(messages, lo, i, j - 1, id);
    }
  }

  /** In an answered run every result matches a call, which names it. */
  lemma ResultNamed(messages: seq<AgentMessage>, a: nat, b: nat, j: nat) returns (k: nat)
    requires AnsweredRun(messages, a, b) && a < j < b
    ensures k < |IdsOf(messages[a])| && Matches(messages, a, j, k)
    ensures ResultWire(messages, j) == TurnWires(messages, a)[k]
  {
    var ids, id := IdsOf(messages[a]), messages[j].toolCallId;
    ResultsGrow(messages, a + 1, j, b, id);
    k := CallAtPlace(ids, |ids|, id, CountResults(messages, a + 1, j, id));
    RunHead(messages, a, j);
    QueuePlace(ids, TurnWires(messages, a), id, k);
    hide TurnWires, Queue, CountIn, CountResults, IdsOf, Head;
  }

  lemma CallNamed(messages: seq<AgentMessage>, a: nat, b: nat, k: nat) returns (j: nat)
    requires AnsweredRun(messages, a, b) && k < |IdsOf(messages[a])|
    ensures a < j < b && Matches(messages, a, j, k)
  {
    var ids := IdsOf(messages[a]);
    PlacesGrow(ids, k, |ids|, ids[k]);
    j := ResultAtPlace(messages, a + 1, b, ids[k], CountIn(ids, k, ids[k]));
  }

  lemma MatchIsUnique(messages: seq<AgentMessage>, a: nat, j: nat, k: nat, l: nat)
    requires a < j < |messages| && k < |IdsOf(messages[a])| && l < |IdsOf(messages[a])|
    requires Matches(messages, a, j, k) && Matches(messages, a, j, l)
    ensures k == l
  {
    var ids := IdsOf(messages[a]);
    if k < l {
      PlacesGrow(ids, k, l, ids[k]);
    } else if l < k {
      PlacesGrow(ids, l, k, ids[k]);
    }
  }

  lemma DistinctTurnWires(messages: seq<AgentMessage>, a: nat, k: nat, l: nat)
    requires a < |messages| && k < l < |IdsOf(messages[a])|
    ensures TurnWires(messages, a)[k] != TurnWires(messages, a)[l]
  {
    hide *;
    StartInitial(messages, a + 1);
    var before := Ids(messages, a);
    assert Ids(messages, a + 1) == before + IdsOf(messages[a]) by { IdsNext(messages, a); }
    WiresDiffer(Start(messages), Ids(messages, a + 1), |before| + k, |before| + l);
    TurnWiresNext(messages, a);
  }

  lemma IdsNext(messages: seq<AgentMessage>, a: nat)
    requires a < |messages|
    ensures Ids(messages, a + 1) == Ids(messages, a) + IdsOf(messages[a])
  {
  }

  /**
   In a run whose results answer its calls, normalization names result and call alike exactly
   when they match: same original id, and the same place among those that carry it. This pairs
   the calls with the results one to one.
   */
  lemma RunPairing(messages: seq<AgentMessage>, a: nat, b: nat, j: nat, k: nat)
    requires AnsweredRun(messages, a, b) && a < j < b && k < |IdsOf(messages[a])|
    ensures NormalizedAt(messages, j).ToolResult? && IdsOf(NormalizedAt(messages, a)) == TurnWires(messages, a)
    ensures NormalizedAt(messages, j).toolCallId == TurnWires(messages, a)[k] <==> Matches(messages, a, j, k)
  {
    NormalizedIds(messages, a);
    var l := ResultNamed(messages, a, b, j);
    if k != l && Matches(messages, a, j, k) {
      MatchIsUnique(messages, a, j, k, l);
    }
    if k < l {
      DistinctTurnWires(messages, a, k, l);
    } else if l < k {
      DistinctTurnWires(messages, a, l, k);
    }
    hide TurnWires, ResultWire, Matches, IdsOf;
  }
}

/** The per-turn cap: which calls of a batch run and which are deferred (src/exec.rs). */
module ToolCallCap {
  import opened Wrappers
  import opened Transcript
  import opened Config

  predicate CountsTowardCallLimit(tools: Registry, name: string) {
    name in tools && tools[name].countsTowardCallLimit && !tools[name].parallelSafePerTurn
  }

  /** How many of the first n calls consume a slot. */
  function CountLimited(tools: Registry, calls: seq<ToolCall>, n: nat): (c: nat)
    requires n <= |calls|
    ensures c <= n
    decreases n
  {
    if n == 0 then 0
    else CountLimited(tools, calls, n - 1) + (if CountsTowardCallLimit(tools, calls[n - 1].name) then 1 else 0)
  }

  function Slots(cap: nat): nat {
    if cap < 1 then 1 else cap
  }

  /** A call is deferred when it needs a slot and the counted calls before it have taken them all. */
  predicate IsDeferred(tools: Registry, calls: seq<ToolCall>, cap: Option<nat>, i: nat)
    requires i < |calls|
  {
    && cap.Some?
    && CountsTowardCallLimit(tools, calls[i].name)
    && CountLimited(tools, calls, i) >= Slots(cap.value)
  }

  /** Those of the first n calls that run (deferred == false) or are deferred (deferred == true), in source order. */
  function Part(tools: Registry, calls: seq<ToolCall>, cap: Option<nat>, deferred: bool, n: nat): seq<ToolCall>
    requires n <= |calls|
    decreases n
  {
    if n == 0 then []
    else if IsDeferred(tools, calls, cap, n - 1) == deferred then
      Part(tools, calls, cap, deferred, n - 1) + [calls[n - 1]]
    else
      Part(tools, calls, cap, deferred, n - 1)
  }

  /** The source positions of that part. */
  function Positions(tools: Registry, calls: seq<ToolCall>, cap: Option<nat>, deferred: bool, n: nat): seq<nat>
    requires n <= |calls|
    decreases n
  {
    if n == 0 then []
    else if IsDeferred(tools, calls, cap, n - 1) == deferred then
      Positions(tools, calls, cap, deferred, n - 1) + [n - 1]
    else
      Positions(tools, calls, cap, deferred, n - 1)
  }

  function Executable(tools: Registry, calls: seq<ToolCall>, cap: Option<nat>): seq<ToolCall> {
    Part(tools, calls, cap, false, |calls|)
  }

  function Deferred(tools: Registry, calls: seq<ToolCall>, cap: Option<nat>): seq<ToolCall> {
    Part(tools, calls, cap, true, |calls|)
  }

  // ----- which calls are deferred, declaratively

  /**
   The positions before i of calls that take a slot: registered, counted, and not declared safe to
   run beside any other.
   */
  function SlotTakers(tools: Registry, calls: seq<ToolCall>, i: nat): set<nat>
    requires i <= |calls|
  {
    set j: nat | j < i && calls[j].name in tools && tools[calls[j].name].countsTowardCallLimit
                 && !tools[calls[j].name].parallelSafePerTurn
  }

  lemma {:induction false} SlotTakersCounted(tools: Registry, calls: seq<ToolCall>, n: nat)
    requires n <= |calls|
    ensures |SlotTakers(tools, calls, n)| == CountLimited(tools, calls, n)
    decreases n
  {
    if n == 0 {
      assert SlotTakers(tools, calls, 0) == {};
    } else {
      SlotTakersCounted(tools, calls, n - 1);
      var before, now := SlotTakers(tools, calls, n - 1), SlotTakers(tools, calls, n);
      assert now == before + (if CountsTowardCallLimit(tools, calls[n - 1].name) then {n - 1} else {});
      assert n - 1 !in before;
    }
  }

  /**
   A call is deferred exactly when it takes a slot and the calls before it have taken all of them, of
   which there is at least one.
   */
  lemma DeferredExactly(tools: Registry, calls: seq<ToolCall>, cap: Option<nat>, i: nat)
    requires i < |calls|
    ensures IsDeferred(tools, calls, cap, i) <==>
            && cap.Some? && i in SlotTakers(tools, calls, i + 1)
            && |SlotTakers(tools, calls, i)| >= 1 && |SlotTakers(tools, calls, i)| >= cap.value
  {
    SlotTakersCounted(tools, calls, i);
  }

  // ----- laws of the split

  /** Each part keeps source order and holds exactly the calls of its kind. */
  lemma {:induction false} PartExact(tools: Registry, calls: seq<ToolCall>, cap: Option<nat>, deferred: bool, n: nat)
    requires n <= |calls|
    ensures var at := Positions(tools, calls, cap, deferred, n);
            && Increasing(at)
            && (forall i: nat :: i in at <==> i < n && IsDeferred(tools, calls, cap, i) == deferred)
            && |Part(tools, calls, cap, deferred, n)| == |at|
            && (forall k :: 0 <= k < |at| ==> at[k] < n && Part(tools, calls, cap, deferred, n)[k] == calls[at[k]])
    decreases n
  {
    if n > 0 {
      PartExact(tools, calls, cap, deferred, n - 1);
    }
  }

  /** No id is lost or doubled: every id occurs as often in the two parts together as in the batch. */
  lemma {:induction false} SplitCountsIds(tools: Registry, calls: seq<ToolCall>, cap: Option<nat>, n: nat, id: string)
    requires n <= |calls|
    ensures CountId(Part(tools, calls, cap, false, n), id) + CountId(Part(tools, calls, cap, true, n), id)
         == CountId(calls[..n], id)
    decreases n
  {
    if n > 0 {
      SplitCountsIds(tools, calls, cap, n - 1, id);
      assert calls[..n] == calls[..n - 1] + [calls[n - 1]];
      CountIdAppend(calls[..n - 1], [calls[n - 1]], id);
      CountIdAppend(Part(tools, calls, cap, IsDeferred(tools, calls, cap, n - 1), n - 1), [calls[n - 1]], id);
    }
  }

  lemma {:induction false} CountLimitedPrefix(tools: Registry, a: seq<ToolCall>, b: seq<ToolCall>, n: nat)
    requires n <= |a| && n <= |b|
    requires forall k :: 0 <= k < n ==> a[k] == b[k]
    ensures CountLimited(tools, a, n) == CountLimited(tools, b, n)
    decreases n
  {
    if n > 0 {
      CountLimitedPrefix(tools, a, b, n - 1);
    }
  }

  /** The slot-needing calls of the part. */
  function CountedIn(tools: Registry, calls: seq<ToolCall>): nat {
    CountLimited(tools, calls, |calls|)
  }

  lemma CountedInAppend(tools: Registry, calls: seq<ToolCall>, call: ToolCall)
    ensures CountedIn(tools, calls + [call])
         == CountedIn(tools, calls) + (if CountsTowardCallLimit(tools, call.name) then 1 else 0)
  {
    CountLimitedPrefix(tools, calls, calls + [call], |calls|);
  }

  /** Running calls that need a slot are the first `Slots(cap)` of them, or all when there are fewer. */
  lemma {:induction false} CountedExecutables(tools: Registry, calls: seq<ToolCall>, cap: nat, n: nat)
    requires n <= |calls|
    ensures CountedIn(tools, Part(tools, calls, Some(cap), false, n))
         == if CountLimited(tools, calls, n) <= Slots(cap) then CountLimited(tools, calls, n) else Slots(cap)
    decreases n
  {
    if n > 0 {
      CountedExecutables(tools, calls, cap, n - 1);
      CountedInAppend(tools, Part(tools, calls, Some(cap), false, n - 1), calls[n - 1]);
    }
  }

  lemma {:induction false} NothingDeferred(tools: Registry, calls: seq<ToolCall>, cap: Option<nat>, n: nat)
    requires n <= |calls|
    requires cap.Some? ==> CountLimited(tools, calls, n) <= Slots(cap.value)
    ensures Part(tools, calls, cap, false, n) == calls[..n]
    ensures Part(tools, calls, cap, true, n) == []
    decreases n
  {
    if n > 0 {
      NothingDeferred(tools, calls, cap, n - 1);
      assert calls[..n] == calls[..n - 1] + [calls[n - 1]];
    } else {
      assert calls[..0] == [];
    }
  }

  /**
   The cap splits a batch into two order-preserving parts that together hold every call once;
   only calls that need a slot are deferred; `min(Slots(cap), counted)` of those run; and the
   first call of a batch always runs, so a non-empty batch never runs empty.
   */
  lemma SplitConserves(tools: Registry, calls: seq<ToolCall>, cap: Option<nat>)
    ensures forall id :: CountId(Executable(tools, calls, cap), id) + CountId(Deferred(tools, calls, cap), id)
                      == CountId(calls, id)
    ensures forall k :: 0 <= k < |Deferred(tools, calls, cap)| ==>
              CountsTowardCallLimit(tools, Deferred(tools, calls, cap)[k].name)
    ensures calls != [] ==> Executable(tools, calls, cap) != [] && calls[0] in Executable(tools, calls, cap)
    ensures cap.None? ==> Executable(tools, calls, cap) == calls && Deferred(tools, calls, cap) == []
    ensures cap.Some? ==>
              CountedIn(tools, Executable(tools, calls, cap))
              == if CountedIn(tools, calls) <= Slots(cap.value) then CountedIn(tools, calls) else Slots(cap.value)
  {
    forall id ensures CountId(Executable(tools, calls, cap), id) + CountId(Deferred(tools, calls, cap), id)
      == CountId(calls, id) {
      SplitCountsIds(tools, calls, cap, |calls|, id);
      assert calls[..|calls|] == calls;
    }
    PartExact(tools, calls, cap, true, |calls|);
    PartExact(tools, calls, cap, false, |calls|);
    var late := Positions(tools, calls, cap, true, |calls|);
    forall k | 0 <= k < |Deferred(tools, calls, cap)|
      ensures CountsTowardCallLimit(tools, Deferred(tools, calls, cap)[k].name)
    {
      assert late[k] in late;
    }
    if calls != [] {
      var at := Positions(tools, calls, cap, false, |calls|);
      assert 0 in at;
    }
    if cap.Some? {
      CountedExecutables(tools, calls, cap.value, |calls|);
    } else {
      NothingDeferred(tools, calls, cap, |calls|);
      assert calls[..|calls|] == calls;
    }
  }

  // ----- when the split keeps source order

  /** Some deferred call stands before a call that runs, so that the split moves the second ahead of the first. */
  predicate Overtaken(tools: Registry, calls: seq<ToolCall>, cap: Option<nat>) {
    exists i: nat, p: nat :: i < p < |calls| && IsDeferred(tools, calls, cap, i) && !IsDeferred(tools, calls, cap, p)
  }

  lemma {:induction false} CountLimitedGrows(tools: Registry, calls: seq<ToolCall>, m: nat, n: nat)
    requires m <= n <= |calls|
    ensures CountLimited(tools, calls, m) <= CountLimited(tools, calls, n)
    decreases n
  {
    if m < n {
      CountLimitedGrows(tools, calls, m, n - 1);
    }
  }

  /** A call behind a deferred one that runs is a different call: it needs no slot. */
  lemma OvertakerDiffers(tools: Registry, calls: seq<ToolCall>, cap: Option<nat>, i: nat, p: nat)
    requires i < p < |calls| && IsDeferred(tools, calls, cap, i) && !IsDeferred(tools, calls, cap, p)
    ensures calls[i] != calls[p]
  {
    CountLimitedGrows(tools, calls, i, p);
  }

  lemma {:induction false} NoneDeferredBefore(tools: Registry, calls: seq<ToolCall>, cap: Option<nat>, n: nat)
    requires n <= |calls| && forall i: nat :: i < n ==> !IsDeferred(tools, calls, cap, i)
    ensures Part(tools, calls, cap, true, n) == []
    decreases n
  {
    if n > 0 {
      NoneDeferredBefore(tools, calls, cap, n - 1);
    }
  }

  lemma {:induction false} OrderKept(tools: Registry, calls: seq<ToolCall>, cap: Option<nat>, n: nat)
    requires n <= |calls| && !Overtaken(tools, calls, cap)
    ensures Part(tools, calls, cap, false, n) + Part(tools, calls, cap, true, n) == calls[..n]
    decreases n
  {
    if n > 0 {
      OrderKept(tools, calls, cap, n - 1);
      var run, late := Part(tools, calls, cap, false, n - 1), Part(tools, calls, cap, true, n - 1);
      TakeSnoc(calls, n);
      if IsDeferred(tools, calls, cap, n - 1) {
        OneMore(run, late, calls[n - 1]);
      } else {
        NoneDeferredBefore(tools, calls, cap, n - 1);
        NothingAdded(run);
        NothingAdded(run + [calls[n - 1]]);
      }
    }
  }

  /** If the parts put together are the batch, then the calls that run are its first ones. */
  lemma {:induction false} RunningFirst(tools: Registry, calls: seq<ToolCall>, cap: Option<nat>, k: nat)
    requires Executable(tools, calls, cap) + Deferred(tools, calls, cap) == calls
    requires k < |Positions(tools, calls, cap, false, |calls|)|
    ensures Positions(tools, calls, cap, false, |calls|)[k] == k
    decreases k
  {
    var at := Positions(tools, calls, cap, false, |calls|);
    PartExact(tools, calls, cap, false, |calls|);
    IncreasingLower(at, k);
    hide Positions, Part, IsDeferred;
    if at[k] > k {
      forall j | 0 <= j < |at| ensures at[j] != k {
        if j < k {
          RunningFirst(tools, calls, cap, j);
        } else if j > k {
          assert at[k] < at[j];
        }
      }
      assert k !in at;
      assert at[k] in at;
      assert (Executable(tools, calls, cap) + Deferred(tools, calls, cap))[k] == calls[at[k]];
      OvertakerDiffers(tools, calls, cap, k, at[k]);
      assert false;
    }
  }

  /**
   The executable calls followed by the deferred ones are the batch in source order exactly when no
   call overtakes.
   */
  lemma SourceOrderExactly(tools: Registry, calls: seq<ToolCall>, cap: Option<nat>)
    ensures Executable(tools, calls, cap) + Deferred(tools, calls, cap) == calls <==> !Overtaken(tools, calls, cap)
  {
    if !Overtaken(tools, calls, cap) {
      OrderKept(tools, calls, cap, |calls|);
      assert calls[..|calls|] == calls;
    } else if Executable(tools, calls, cap) + Deferred(tools, calls, cap) == calls {
      var at := Positions(tools, calls, cap, false, |calls|);
      var i: nat, p: nat :| i < p < |calls| && IsDeferred(tools, calls, cap, i) && !IsDeferred(tools, calls, cap, p);
      PartExact(tools, calls, cap, false, |calls|);
      assert p in at;
      var k: nat :| k < |at| && at[k] == p;
      RunningFirst(tools, calls, cap, k);
      assert at[i] in at;
      RunningFirst(tools, calls, cap, i);
      assert false;
    }
  }

  // ----- the loop of the program

  method CountLimitCountedToolCalls(tools: Registry, calls: seq<ToolCall>) returns (count: nat)
    ensures count == CountedIn(tools, calls)
  {
    count := 0;
    for i := 0 to |calls|
      invariant count == CountLimited(tools, calls, i)
    {
      if CountsTowardCallLimit(tools, calls[i].name) {
        count := count + 1;
      }
    }
  }

  method SplitToolCallsForExecution(tools: Registry, calls: seq<ToolCall>, cap: Option<nat>)
    returns (executable: seq<ToolCall>, unexecuted: seq<ToolCall>)
    ensures executable == Executable(tools, calls, cap)
    ensures unexecuted == Deferred(tools, calls, cap)
  {
    assert calls[..|calls|] == calls;
    if cap.None? {
      NothingDeferred(tools, calls, cap, |calls|);
      return calls, [];
    }
    var maxToolCalls := Slots(cap.value);
    var counted := CountLimitCountedToolCalls(tools, calls);
    if counted <= maxToolCalls {
      NothingDeferred(tools, calls, cap, |calls|);
      return calls, [];
    }
    executable, unexecuted := [], [];
    var executedCounted := 0;
    for i := 0 to |calls|
      invariant executedCounted == if CountLimited(tools, calls, i) <= maxToolCalls
                                   then CountLimited(tools, calls, i) else maxToolCalls
      invariant executable == Part(tools, calls, cap, false, i)
      invariant unexecuted == Part(tools, calls, cap, true, i)
    {
      if !CountsTowardCallLimit(tools, calls[i].name) {
        executable := executable + [calls[i]];
      } else if executedCounted < maxToolCalls {
        executedCounted := executedCounted + 1;
        executable := executable + [calls[i]];
      } else {
        unexecuted := unexecuted + [calls[i]];
      }
    }
  }
}

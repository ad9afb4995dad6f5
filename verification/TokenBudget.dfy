/** The global trim of old tool results (src/budget.rs). */
module TokenBudget {
  import opened Wrappers
  import opened Transcript
  import Utf8

  /** The trigger in tokens, the marker text, and the estimate of a whole history. */
  datatype Budget = Budget(trigger: nat, marker: Utf8.Text, estimate: seq<AgentMessage> -> nat)

  predicate ContentAlreadyMarker(content: seq<ResultBlock>, marker: Utf8.Text) {
    |content| == 1 && content[0] == TextBlock(marker)
  }

  /** A tool result that still carries its content. */
  predicate Trimmable(b: Budget, message: AgentMessage) {
    message.ToolResult? && !ContentAlreadyMarker(message.result, b.marker)
  }

  function Marked(b: Budget, message: AgentMessage): AgentMessage {
    if Trimmable(b, message) then message.(result := [TextBlock(b.marker)]) else message
  }

  /** The last two messages are out of reach. */
  function Reach(messages: seq<AgentMessage>): nat {
    if |messages| >= 2 then |messages| - 2 else 0
  }

  /** The history with every trimmable message before position n replaced. */
  function MarkedTo(b: Budget, messages: seq<AgentMessage>, n: nat): (r: seq<AgentMessage>)
    requires n <= |messages|
    ensures |r| == |messages|
  {
    if n == 0 then messages else MarkedTo(b, messages, n - 1)[n - 1 := Marked(b, messages[n - 1])]
  }

  lemma {:induction false} MarkedToAt(b: Budget, messages: seq<AgentMessage>, n: nat, i: nat)
    requires n <= |messages| && i < |messages|
    ensures MarkedTo(b, messages, n)[i] == if i < n then Marked(b, messages[i]) else messages[i]
    decreases n
  {
    if n > 0 {
      MarkedToAt(b, messages, n - 1, i);
    }
  }

  /** The walk may stop behind position n: it just replaced that message, and the history fits now. */
  predicate StopsBehind(b: Budget, messages: seq<AgentMessage>, n: nat)
    requires n < |messages|
  {
    Trimmable(b, messages[n]) && b.estimate(MarkedTo(b, messages, n + 1)) <= b.trigger
  }

  /** Where a walk that has reached n stops. */
  function Stop(b: Budget, messages: seq<AgentMessage>, n: nat): (r: nat)
    requires n <= Reach(messages)
    ensures n <= r <= Reach(messages)
    decreases Reach(messages) - n
  {
    if n == Reach(messages) then n
    else if StopsBehind(b, messages, n) then n + 1
    else Stop(b, messages, n + 1)
  }

  function Trimmed(b: Budget, messages: seq<AgentMessage>): (r: seq<AgentMessage>)
    ensures |r| == |messages|
  {
    if b.estimate(messages) <= b.trigger then messages else MarkedTo(b, messages, Stop(b, messages, 0))
  }

  lemma {:induction false} StopIsFirst(b: Budget, messages: seq<AgentMessage>, n: nat)
    requires n <= Reach(messages)
    ensures var stop := Stop(b, messages, n);
            && (stop == Reach(messages) || (stop > n && StopsBehind(b, messages, stop - 1)))
            && (forall k :: n <= k < stop - 1 ==> !StopsBehind(b, messages, k))
    decreases Reach(messages) - n
  {
    hide StopsBehind;
    if n < Reach(messages) && !StopsBehind(b, messages, n) {
      StopIsFirst(b, messages, n + 1);
    }
  }

  /**
   A history over the trigger has exactly its first unmarked tool results replaced, oldest
   first: as few as make it fit (but at least one, when there is one), or else all of them. The
   last two messages, and everything that is not a tool result, stay as they are.
   */
  lemma TrimLaws(b: Budget, messages: seq<AgentMessage>)
    requires b.estimate(messages) > b.trigger
    ensures var stop := Stop(b, messages, 0);
            && stop <= Reach(messages)
            && (forall i: nat :: i < |messages| ==>
                  Trimmed(b, messages)[i] == if i < stop then Marked(b, messages[i]) else messages[i])
            && (forall k: nat :: k + 1 < stop && Trimmable(b, messages[k]) ==>
                  b.estimate(MarkedTo(b, messages, k + 1)) > b.trigger)
            && (stop == Reach(messages)
                || (stop > 0 && Trimmable(b, messages[stop - 1]) && b.estimate(Trimmed(b, messages)) <= b.trigger))
            && (forall i: nat :: Reach(messages) <= i < |messages| ==> Trimmed(b, messages)[i] == messages[i])
  {
    var stop := Stop(b, messages, 0);
    StopIsFirst(b, messages, 0);
    forall k: nat | k + 1 < stop && Trimmable(b, messages[k])
      ensures b.estimate(MarkedTo(b, messages, k + 1)) > b.trigger
    {
      assert !StopsBehind(b, messages, k);
    }
    forall i: nat | i < |messages|
      ensures Trimmed(b, messages)[i] == if i < stop then Marked(b, messages[i]) else messages[i]
    {
      MarkedToAt(b, messages, stop, i);
    }
    hide MarkedTo, Stop, Trimmable, Marked;
  }

  /** A tool result whose whole content is not the marker yet. */
  predicate Untrimmed(b: Budget, message: AgentMessage) {
    message.ToolResult? && message.result != [TextBlock(b.marker)]
  }

  /** The history with the marker in place of the untrimmed results among the first n messages. */
  function Replaced(b: Budget, messages: seq<AgentMessage>, n: nat): seq<AgentMessage> {
    seq(|messages|, i requires 0 <= i < |messages| =>
      if i < n && Untrimmed(b, messages[i]) then messages[i].(result := [TextBlock(b.marker)]) else messages[i])
  }

  lemma ReplacedExactly(b: Budget, messages: seq<AgentMessage>, n: nat)
    requires n <= |messages|
    ensures MarkedTo(b, messages, n) == Replaced(b, messages, n)
    ensures forall i :: 0 <= i < |messages| ==> (Trimmable(b, messages[i]) <==> Untrimmed(b, messages[i]))
  {
    forall i: nat | i < |messages|
      ensures MarkedTo(b, messages, n)[i] == Replaced(b, messages, n)[i]
      ensures Trimmable(b, messages[i]) <==> Untrimmed(b, messages[i])
    {
      MarkedToAt(b, messages, n, i);
      assert messages[i].ToolResult? && |messages[i].result| == 1 ==> messages[i].result == [messages[i].result[0]];
    }
  }

  /**
   A history within the trigger stays as it is. Of any other the untrimmed results are replaced up
   to a point: where replacing one first makes the history fit, or, if that never happens, up to
   the last two messages.
   */
  lemma TrimExactly(b: Budget, messages: seq<AgentMessage>) returns (n: nat)
    ensures Trimmed(b, messages) == Replaced(b, messages, n)
    ensures if b.estimate(messages) <= b.trigger then n == 0
            else
              && (n == 0 || n + 2 <= |messages|)
              && (forall k: nat :: 0 < k < n && Untrimmed(b, messages[k - 1]) ==>
                    b.estimate(Replaced(b, messages, k)) > b.trigger)
              && (n + 2 < |messages| ==>
                    n > 0 && Untrimmed(b, messages[n - 1]) && b.estimate(Replaced(b, messages, n)) <= b.trigger)
  {
    if b.estimate(messages) <= b.trigger {
      n := 0;
      ReplacedExactly(b, messages, 0);
    } else {
      n := Stop(b, messages, 0);
      StopIsFirst(b, messages, 0);
      hide Stop, MarkedTo, Replaced, Trimmable, Untrimmed;
      ReplacedExactly(b, messages, n);
      forall k: nat | 0 < k < n && Untrimmed(b, messages[k - 1])
        ensures b.estimate(Replaced(b, messages, k)) > b.trigger
      {
        ReplacedExactly(b, messages, k);
        assert !StopsBehind(b, messages, k - 1);
      }
    }
  }

  lemma {:induction false} NothingTrimmable(b: Budget, messages: seq<AgentMessage>, n: nat)
    requires n <= |messages| && forall i :: 0 <= i < n ==> !Trimmable(b, messages[i])
    ensures MarkedTo(b, messages, n) == messages
    decreases n
  {
    if n > 0 {
      NothingTrimmable(b, messages, n - 1);
      assert !Trimmable(b, messages[n - 1]);
    }
  }

  /** A marked message cannot be trimmed again. */
  lemma MarkedOnce(b: Budget, message: AgentMessage)
    ensures !Trimmable(b, Marked(b, message))
  {
  }

  lemma StoppedEarlyFits(b: Budget, messages: seq<AgentMessage>)
    requires b.estimate(messages) > b.trigger && b.estimate(Trimmed(b, messages)) > b.trigger
    ensures Stop(b, messages, 0) == Reach(messages)
  {
    TrimLaws(b, messages);
  }

  /** Trimming twice is trimming once, even for an estimate that a replacement makes grow. */
  lemma Idempotent(b: Budget, messages: seq<AgentMessage>)
    ensures Trimmed(b, Trimmed(b, messages)) == Trimmed(b, messages)
  {
    var once := Trimmed(b, messages);
    if b.estimate(messages) > b.trigger && b.estimate(once) > b.trigger {
      StoppedEarlyFits(b, messages);
      var n := Stop(b, once, 0);
      hide Stop;
      forall i | 0 <= i < n ensures !Trimmable(b, once[i]) {
        MarkedToAt(b, messages, Reach(messages), i);
        MarkedOnce(b, messages[i]);
      }
      NothingTrimmable(b, once, n);
    }
  }

  // ----- the program

  method Transform(b: Budget, messages: seq<AgentMessage>) returns (trimmed: seq<AgentMessage>)
    ensures trimmed == Trimmed(b, messages)
  {
    trimmed := messages;
    var total := b.estimate(trimmed);
    if total <= b.trigger {
      return;
    }
    var lastIdx := Reach(messages);
    var idx: nat := 0;
    while idx < lastIdx
      invariant idx <= lastIdx
      invariant trimmed == MarkedTo(b, messages, idx)
      invariant Stop(b, messages, idx) == Stop(b, messages, 0)
    {
      MarkedToAt(b, messages, idx, idx);
      hide Trimmable;
      var message := trimmed[idx];
      var truncated := false;
      if Trimmable(b, message) {
        trimmed := trimmed[idx := message.(result := [TextBlock(b.marker)])];
        truncated := true;
      }
      idx := idx + 1;
      if truncated {
        total := b.estimate(trimmed);
        if total <= b.trigger {
          break;
        }
      }
    }
  }
}

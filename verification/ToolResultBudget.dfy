/** Clipping of oversized older tool results (src/tool_result_budget.rs), over UTF-8 text (section 3 of RFC 3629). */
module ToolResultBudget {
  import opened Wrappers
  import opened Transcript
  import opened Config
  import opened Utf8

  const SEPARATOR: Text := [10, 10]

  function MarkerPrefix(): Text {
    Encode("[tool_result_budget: clipped")
  }

  /** The marker text is given: its prose and its own truncation are not modelled. */
  datatype Budget = Budget(registry: Registry, defaultMaxChars: Usize, marker: (string, string, nat, Usize) -> Text)

  /** The markers are text. */
  ghost predicate MarkersAreText(budget: Budget) {
    forall id: string, name: string, chars: nat, cap: Usize :: Valid(budget.marker(id, name, chars, cap))
  }

  function SaturatingAdd(a: nat, b: nat): Usize {
    if a + b <= USIZE_MAX then a + b else USIZE_MAX
  }

  function SaturatingMul(a: nat, b: nat): Usize {
    if a * b <= USIZE_MAX then a * b else USIZE_MAX
  }

  function SaturatingSub(a: nat, b: nat): nat {
    if a >= b then a - b else 0
  }

  // ----- boundaries

  /** The greatest boundary at or below the index. */
  function Floor(text: Text, index: nat): (r: nat)
    requires index <= |text|
    ensures r <= index && Boundary(text, r)
  {
    if index > 0 && !Boundary(text, index) then Floor(text, index - 1) else index
  }

  /** The least boundary at or above the index. */
  function Ceil(text: Text, index: nat): (r: nat)
    requires index <= |text|
    ensures index <= r <= |text| && Boundary(text, r)
    decreases |text| - index
  {
    if index < |text| && !Boundary(text, index) then Ceil(text, index + 1) else index
  }

  lemma {:induction false} FloorIsGreatest(text: Text, index: nat, k: nat)
    requires index <= |text| && k <= index && Boundary(text, k)
    ensures k <= Floor(text, index)
    decreases index
  {
    if index > 0 && !Boundary(text, index) {
      FloorIsGreatest(text, index - 1, k);
    }
  }

  lemma {:induction false} CeilIsLeast(text: Text, index: nat, k: nat)
    requires index <= k <= |text| && Boundary(text, k)
    ensures Ceil(text, index) <= k
    decreases |text| - index
  {
    if index < |text| && !Boundary(text, index) {
      CeilIsLeast(text, index + 1, k);
    }
  }

  /** In valid text neither boundary is more than three bytes away. */
  lemma BoundariesAreNear(text: Text, index: nat)
    requires Valid(text) && index <= |text|
    ensures index <= Floor(text, index) + 3 && Ceil(text, index) <= index + 3
  {
    BoundaryNear(text, index);
    var lo: nat :| lo <= index <= lo + 3 && Boundary(text, lo);
    var hi: nat :| index <= hi <= index + 3 && hi <= |text| && Boundary(text, hi);
    FloorIsGreatest(text, index, lo);
    CeilIsLeast(text, index, hi);
  }

  // ----- the excerpt

  function FixedChars(marker: Text): Usize {
    SaturatingAdd(|marker|, SaturatingMul(|SEPARATOR|, 2))
  }

  function HeadBudget(marker: Text, cap: Usize): nat
    requires cap > FixedChars(marker)
  {
    SaturatingMul(cap - FixedChars(marker), 3) / 4
  }

  function TailBudget(marker: Text, cap: Usize): (r: nat)
    requires cap > FixedChars(marker)
    ensures HeadBudget(marker, cap) + r + |marker| + 2 * |SEPARATOR| == cap
  {
    cap - FixedChars(marker) - HeadBudget(marker, cap)
  }

  function Least(a: nat, b: nat): nat {
    if a <= b then a else b
  }

  function HeadEnd(text: Text, marker: Text, cap: Usize): (r: nat)
    requires cap > FixedChars(marker)
    ensures r <= |text|
  {
    Floor(text, Least(HeadBudget(marker, cap), |text|))
  }

  function TailStart(text: Text, marker: Text, cap: Usize): (r: nat)
    requires cap > FixedChars(marker)
    ensures r <= |text|
  {
    Ceil(text, SaturatingSub(|text|, TailBudget(marker, cap)))
  }

  function Excerpt(text: Text, marker: Text, cap: Usize): Text {
    if cap <= FixedChars(marker) then marker[..Floor(marker, Least(cap, |marker|))]
    else text[..HeadEnd(text, marker, cap)] + SEPARATOR + marker + SEPARATOR + text[TailStart(text, marker, cap)..]
  }

  /** An excerpt never exceeds the cap. */
  lemma ExcerptWithinCap(text: Text, marker: Text, cap: Usize)
    ensures |Excerpt(text, marker, cap)| <= cap
  {
    hide Floor, Ceil, HeadBudget;
  }

  /**
   Of a text beyond the cap, when the marker fits: the head and the tail are disjoint, both cut
   at character boundaries, and rounding to them costs at most three bytes each.
   */
  lemma ExcerptKeepsEvidence(text: Text, marker: Text, cap: Usize)
    requires Valid(text) && |text| > cap > FixedChars(marker)
    ensures var head, tail := HeadEnd(text, marker, cap), TailStart(text, marker, cap);
            && head <= tail && Boundary(text, head) && Boundary(text, tail)
            && Excerpt(text, marker, cap) == text[..head] + SEPARATOR + marker + SEPARATOR + text[tail..]
            && HeadBudget(marker, cap) - 3 <= head <= HeadBudget(marker, cap)
            && TailBudget(marker, cap) - 3 <= |text| - tail <= TailBudget(marker, cap)
            && cap - 6 <= |Excerpt(text, marker, cap)| <= cap
  {
    hide Floor, Ceil, HeadBudget, TailBudget, FixedChars, Boundary, Valid;
    BoundariesAreNear(text, |text| - TailBudget(marker, cap));
    BoundariesAreNear(text, HeadBudget(marker, cap));
  }

  /** An excerpt of text is text: no character is cut in two. */
  lemma ExcerptIsText(text: Text, marker: Text, cap: Usize)
    requires Valid(text) && Valid(marker)
    ensures Valid(Excerpt(text, marker, cap))
  {
    if cap <= FixedChars(marker) {
      BoundarySplits(marker, Floor(marker, Least(cap, |marker|)));
    } else {
      var head, tail := HeadEnd(text, marker, cap), TailStart(text, marker, cap);
      BoundarySplits(text, head);
      BoundarySplits(text, tail);
      assert Valid(SEPARATOR) by { assert SEPARATOR[1..][1..] == []; }
      hide Valid, Floor, Ceil, HeadBudget;
      ValidConcat(text[..head], SEPARATOR);
      ValidConcat(text[..head] + SEPARATOR, marker);
      ValidConcat(text[..head] + SEPARATOR + marker, SEPARATOR);
      ValidConcat(text[..head] + SEPARATOR + marker + SEPARATOR, text[tail..]);
    }
  }

  // ----- contents

  function ContentChars(blocks: seq<ResultBlock>): nat {
    if blocks == [] then 0
    else
      ContentChars(blocks[..|blocks| - 1])
        + (if blocks[|blocks| - 1].TextBlock? then |blocks[|blocks| - 1].bytes| else 0)
  }

  function ResultText(blocks: seq<ResultBlock>): (r: Text)
    ensures |r| == ContentChars(blocks)
  {
    if blocks == [] then []
    else
      ResultText(blocks[..|blocks| - 1]) + (if blocks[|blocks| - 1].TextBlock? then blocks[|blocks| - 1].bytes else [])
  }

  function Images(blocks: seq<ResultBlock>): seq<ResultBlock> {
    if blocks == [] then []
    else Images(blocks[..|blocks| - 1]) + (if blocks[|blocks| - 1].ImageBlock? then [blocks[|blocks| - 1]] else [])
  }

  predicate TextBlocks(blocks: seq<ResultBlock>) {
    forall k :: 0 <= k < |blocks| ==> blocks[k].TextBlock? ==> Valid(blocks[k].bytes)
  }

  predicate OccursAt(text: Text, part: Text, i: nat) {
    i + |part| <= |text| && text[i..i + |part|] == part
  }

  predicate Contains(text: Text, part: Text) {
    exists i: nat :: i <= |text| && OccursAt(text, part, i)
  }

  predicate IsAlreadyMarker(blocks: seq<ResultBlock>) {
    exists k :: 0 <= k < |blocks| && blocks[k].TextBlock? && Contains(blocks[k].bytes, MarkerPrefix())
  }

  function ClipContent(budget: Budget, message: AgentMessage, cap: Usize): seq<ResultBlock>
    requires message.ToolResult?
  {
    var marker := budget.marker(message.toolCallId, message.toolName, ContentChars(message.result), cap);
    [TextBlock(Excerpt(ResultText(message.result), marker, cap))] + Images(message.result)
  }

  lemma {:induction false} ContentAppend(a: seq<ResultBlock>, b: seq<ResultBlock>)
    ensures ContentChars(a + b) == ContentChars(a) + ContentChars(b)
    ensures Images(a + b) == Images(a) + Images(b)
    decreases |b|
  {
    if b == [] {
      NothingAdded(a);
      NothingAdded(Images(a));
    } else {
      assert (a + b)[..|a + b| - 1] == a + b[..|b| - 1];
      ContentAppend(a, b[..|b| - 1]);
    }
  }

  lemma {:induction false} ImagesOfImages(blocks: seq<ResultBlock>)
    ensures ContentChars(Images(blocks)) == 0 && Images(Images(blocks)) == Images(blocks)
    decreases |blocks|
  {
    if blocks != [] {
      var front, last := blocks[..|blocks| - 1], blocks[|blocks| - 1];
      ImagesOfImages(front);
      if last.ImageBlock? {
        ContentAppend(Images(front), [last]);
        assert [last][..0] == [] && Images([last]) == [last];
      } else {
        NothingAdded(Images(front));
      }
    }
  }

  lemma {:induction false} TextIsValid(blocks: seq<ResultBlock>)
    requires TextBlocks(blocks)
    ensures Valid(ResultText(blocks))
    decreases |blocks|
  {
    if blocks != [] {
      var last := blocks[|blocks| - 1];
      assert TextBlocks(blocks[..|blocks| - 1]);
      TextIsValid(blocks[..|blocks| - 1]);
      ValidConcat(ResultText(blocks[..|blocks| - 1]), if last.TextBlock? then last.bytes else []);
    }
  }

  /** Clipped content is within the cap and keeps the images. */
  lemma ClippedContent(budget: Budget, message: AgentMessage, cap: Usize)
    requires message.ToolResult?
    ensures ContentChars(ClipContent(budget, message, cap)) <= cap
    ensures Images(ClipContent(budget, message, cap)) == Images(message.result)
  {
    var marker := budget.marker(message.toolCallId, message.toolName, ContentChars(message.result), cap);
    var text, images := ResultText(message.result), Images(message.result);
    hide ContentChars, Images, Excerpt, ResultText, Valid;
    ExcerptWithinCap(text, marker, cap);
    OneText(Excerpt(text, marker, cap));
    ContentAppend([TextBlock(Excerpt(text, marker, cap))], images);
    ImagesOfImages(message.result);
    NothingAdded(images);
  }

  /** Clipped text is text. */
  lemma ClippedText(budget: Budget, message: AgentMessage, cap: Usize)
    requires message.ToolResult? && MarkersAreText(budget) && TextBlocks(message.result)
    ensures TextBlocks(ClipContent(budget, message, cap))
  {
    var marker := budget.marker(message.toolCallId, message.toolName, ContentChars(message.result), cap);
    hide ContentChars, Images, Excerpt, ResultText, Valid;
    ImagesAreImages(message.result);
    TextIsValid(message.result);
    ExcerptIsText(ResultText(message.result), marker, cap);
  }

  lemma OneText(text: Text)
    ensures ContentChars([TextBlock(text)]) == |text| && Images([TextBlock(text)]) == []
  {
    assert [TextBlock(text)][..0] == [];
  }

  lemma {:induction false} ImagesAreImages(blocks: seq<ResultBlock>)
    ensures forall k :: 0 <= k < |Images(blocks)| ==> Images(blocks)[k].ImageBlock?
    decreases |blocks|
  {
    if blocks != [] {
      ImagesAreImages(blocks[..|blocks| - 1]);
    }
  }

  // ----- the transform

  function CapFor(budget: Budget, name: string): Usize {
    if name in budget.registry && budget.registry[name].maxResultChars.Some?
      then budget.registry[name].maxResultChars.value
    else budget.defaultMaxChars
  }

  /** The last assistant message among the first n. */
  function LastAssistant(messages: seq<AgentMessage>, n: nat): (a: Option<nat>)
    requires n <= |messages|
    ensures a.Some? ==> a.value < n
  {
    if n == 0 then None
    else if messages[n - 1].Assistant? then Some(n - 1)
    else LastAssistant(messages, n - 1)
  }

  /** Where the freshest tool batch begins, if the last assistant message called tools. */
  function FreshBatchStart(messages: seq<AgentMessage>): Option<nat> {
    match LastAssistant(messages, |messages|)
    case Some(a) => if ToolCalls(messages[a]) != [] then Some(a + 1) else None
    case None => None
  }

  predicate IsFresh(messages: seq<AgentMessage>, i: nat) {
    FreshBatchStart(messages).Some? && i >= FreshBatchStart(messages).value
  }

  /** Message i is an older tool result over its cap that carries no marker yet. */
  predicate NeedsClip(budget: Budget, messages: seq<AgentMessage>, i: nat)
    requires i < |messages|
  {
    && messages[i].ToolResult?
    && !IsFresh(messages, i)
    && CapFor(budget, messages[i].toolName) != USIZE_MAX
    && ContentChars(messages[i].result) > CapFor(budget, messages[i].toolName)
    && !IsAlreadyMarker(messages[i].result)
  }

  function ClippedAt(budget: Budget, messages: seq<AgentMessage>, i: nat): AgentMessage
    requires i < |messages|
  {
    if NeedsClip(budget, messages, i) then
      messages[i].(result := ClipContent(budget, messages[i], CapFor(budget, messages[i].toolName)))
    else messages[i]
  }

  function Clipped(budget: Budget, messages: seq<AgentMessage>, n: nat): (r: seq<AgentMessage>)
    requires n <= |messages|
    ensures |r| == n
  {
    if n == 0 then [] else Clipped(budget, messages, n - 1) + [ClippedAt(budget, messages, n - 1)]
  }

  function Transformed(budget: Budget, messages: seq<AgentMessage>): (r: seq<AgentMessage>)
    ensures |r| == |messages|
  {
    Clipped(budget, messages, |messages|)
  }

  lemma {:induction false} ClippedIndex(budget: Budget, messages: seq<AgentMessage>, n: nat, i: nat)
    requires i < n <= |messages|
    ensures Clipped(budget, messages, n)[i] == ClippedAt(budget, messages, i)
    decreases n
  {
    hide ClippedAt;
    if i < n - 1 {
      ClippedIndex(budget, messages, n - 1, i);
    }
  }

  predicate OnlyTextClipped(a: AgentMessage, b: AgentMessage) {
    a == b || (a.ToolResult? && b.ToolResult? && b == a.(result := b.result) && Images(b.result) == Images(a.result))
  }

  /**
   Exactly the older, over-cap results without a marker change, and in them only the text:
   afterwards they fit their cap. The freshest batch, results already carrying a marker (even
   over the cap), and everything else stay as they are; ids, names, images and order are kept.
   */
  lemma TransformLaws(budget: Budget, messages: seq<AgentMessage>, i: nat)
    requires i < |messages|
    ensures var after := Transformed(budget, messages)[i];
            && OnlyTextClipped(messages[i], after)
            && (after != messages[i] <==> NeedsClip(budget, messages, i))
            && (NeedsClip(budget, messages, i) ==> ContentChars(after.result) <= CapFor(budget, after.toolName))
            && (IsFresh(messages, i) ==> after == messages[i])
            && (MarkersAreText(budget) && messages[i].ToolResult? && TextBlocks(messages[i].result) ==>
                  TextBlocks(after.result))
  {
    ClippedIndex(budget, messages, |messages|, i);
    if NeedsClip(budget, messages, i) {
      ClippedContent(budget, messages[i], CapFor(budget, messages[i].toolName));
      if MarkersAreText(budget) && TextBlocks(messages[i].result) {
        ClippedText(budget, messages[i], CapFor(budget, messages[i].toolName));
      }
    }
    hide ClipContent, ContentChars, Images, Clipped, TextBlocks, IsAlreadyMarker, CapFor, MarkersAreText;
  }

  /** An older result of a capped tool ends within its cap iff it already was, or mentioned no marker. */
  lemma FitsUnlessMarked(budget: Budget, messages: seq<AgentMessage>, i: nat)
    requires i < |messages| && messages[i].ToolResult? && !IsFresh(messages, i)
             && CapFor(budget, messages[i].toolName) != USIZE_MAX
    ensures var cap := CapFor(budget, messages[i].toolName);
            Transformed(budget, messages)[i].ToolResult?
            && (ContentChars(Transformed(budget, messages)[i].result) <= cap
                <==> ContentChars(messages[i].result) <= cap || !IsAlreadyMarker(messages[i].result))
  {
    TransformLaws(budget, messages, i);
    hide Transformed, ContentChars, Images, CapFor, IsAlreadyMarker, TextBlocks, MarkersAreText, IsFresh;
  }

  /** Tool output that happens to quote the marker's prefix escapes the cap, whatever its size. */
  lemma QuotedMarkerEscapes(budget: Budget)
    requires budget.registry == map[] && budget.defaultMaxChars == 5
    ensures var message := ToolResult("1", "shell", [TextBlock(MarkerPrefix())], false, NoDetails);
            Transformed(budget, [message]) == [message] && ContentChars(message.result) > 5
  {
    EncodeLength("[tool_result_budget: clipped");
    assert |MarkerPrefix()| > 5;
    hide MarkerPrefix;
    ContainsItself(MarkerPrefix());
    MarkedEscapes(budget, ToolResult("1", "shell", [TextBlock(MarkerPrefix())], false, NoDetails), MarkerPrefix());
  }

  lemma ContainsItself(text: Text)
    ensures Contains(text, text)
  {
    assert text[0..|text|] == text;
    assert OccursAt(text, text, 0);
  }

  lemma MarkedEscapes(budget: Budget, message: AgentMessage, text: Text)
    requires message.ToolResult? && message.result == [TextBlock(text)] && Contains(text, MarkerPrefix())
    ensures Transformed(budget, [message]) == [message] && ContentChars(message.result) == |text|
  {
    hide MarkerPrefix, Contains, ContentChars, ClipContent, CapFor, IsFresh;
    OneText(text);
    assert message.result[0].TextBlock? && Contains(message.result[0].bytes, MarkerPrefix());
    ClippedIndex(budget, [message], 1, 0);
  }

  lemma {:induction false} EncodeLength(s: string)
    ensures |Encode(s)| >= |s|
  {
    if s != [] {
      EncodeLength(s[1..]);
    }
  }

  lemma {:induction false} SameLastAssistant(budget: Budget, messages: seq<AgentMessage>, n: nat)
    requires n <= |messages|
    ensures LastAssistant(Transformed(budget, messages), n) == LastAssistant(messages, n)
    decreases n
  {
    if n > 0 {
      SameLastAssistant(budget, messages, n - 1);
      TransformLaws(budget, messages, n - 1);
      hide Transformed, NeedsClip, ContentChars, TextBlocks, Images, CapFor, IsFresh, MarkersAreText;
    }
  }

  lemma SameFreshBatch(budget: Budget, messages: seq<AgentMessage>)
    ensures FreshBatchStart(Transformed(budget, messages)) == FreshBatchStart(messages)
  {
    SameLastAssistant(budget, messages, |messages|);
    var last := LastAssistant(messages, |messages|);
    LastIsAssistant(messages, |messages|);
    if last.Some? {
      TransformLaws(budget, messages, last.value);
      assert Transformed(budget, messages)[last.value] == messages[last.value];
    }
  }

  lemma {:induction false} LastIsAssistant(messages: seq<AgentMessage>, n: nat)
    requires n <= |messages|
    ensures LastAssistant(messages, n).Some? ==> messages[LastAssistant(messages, n).value].Assistant?
    decreases n
  {
    if n > 0 {
      LastIsAssistant(messages, n - 1);
    }
  }

  /** Transforming twice is transforming once: what was clipped now fits, and the freshest batch is the same. */
  lemma Idempotent(budget: Budget, messages: seq<AgentMessage>)
    ensures Transformed(budget, Transformed(budget, messages)) == Transformed(budget, messages)
  {
    var once := Transformed(budget, messages);
    var twice := Transformed(budget, once);
    SameFreshBatch(budget, messages);
    forall i: nat | i < |once| ensures twice[i] == once[i] {
      SettledAt(budget, messages, i);
      TransformLaws(budget, once, i);
    }
  }

  lemma SettledAt(budget: Budget, messages: seq<AgentMessage>, i: nat)
    requires i < |messages|
    ensures !NeedsClip(budget, Transformed(budget, messages), i)
  {
    TransformLaws(budget, messages, i);
    SameFreshBatch(budget, messages);
    hide Transformed, ContentChars, Images, CapFor, IsAlreadyMarker, TextBlocks, MarkersAreText, FreshBatchStart;
  }

  // ----- the program

  method FloorCharBoundary(text: Text, start: nat) returns (index: nat)
    requires start <= |text|
    ensures index == Floor(text, start)
  {
    index := start;
    while index > 0 && !Boundary(text, index)
      invariant index <= start && Floor(text, index) == Floor(text, start)
    {
      index := index - 1;
    }
  }

  method CeilCharBoundary(text: Text, start: nat) returns (index: nat)
    requires start <= |text|
    ensures index == Ceil(text, start)
  {
    index := start;
    while index < |text| && !Boundary(text, index)
      invariant start <= index <= |text| && Ceil(text, index) == Ceil(text, start)
      decreases |text| - index
    {
      index := index + 1;
    }
  }

  method BoundedExcerpt(text: Text, marker: Text, cap: Usize) returns (excerpt: Text)
    ensures excerpt == Excerpt(text, marker, cap)
  {
    hide Floor, Ceil, Boundary;
    var fixed := SaturatingAdd(|marker|, SaturatingMul(|SEPARATOR|, 2));
    if cap <= fixed {
      var markerEnd := FloorCharBoundary(marker, Least(cap, |marker|));
      return marker[..markerEnd];
    }
    var evidence: Usize := cap - fixed;
    var headBudget := SaturatingMul(evidence, 3) / 4;
    var tailBudget := evidence - headBudget;
    assert headBudget == HeadBudget(marker, cap) && tailBudget == TailBudget(marker, cap);
    hide SaturatingMul, HeadBudget, TailBudget;
    var headEnd := FloorCharBoundary(text, Least(headBudget, |text|));
    var tailStart := CeilCharBoundary(text, SaturatingSub(|text|, tailBudget));
    assert headEnd == HeadEnd(text, marker, cap) && tailStart == TailStart(text, marker, cap);
    hide HeadEnd, TailStart, Least, SaturatingSub;
    excerpt := text[..headEnd] + SEPARATOR + marker + SEPARATOR + text[tailStart..];
  }

  method ProjectContent(budget: Budget, message: AgentMessage, cap: Usize) returns (blocks: seq<ResultBlock>)
    requires message.ToolResult?
    ensures blocks == ClipContent(budget, message, cap)
  {
    var content := message.result;
    var marker := budget.marker(message.toolCallId, message.toolName, ContentChars(content), cap);
    var projected := BoundedExcerpt(ResultText(content), marker, cap);
    blocks := [TextBlock(projected)];
    assert content[..0] == [];
    NothingAdded([TextBlock(projected)]);
    for k := 0 to |content|
      invariant blocks == [TextBlock(projected)] + Images(content[..k])
    {
      assert content[..k + 1][..k] == content[..k];
      hide ResultText, Excerpt, ContentChars;
      if content[k].ImageBlock? {
        blocks := blocks + [content[k]];
      } else {
        NothingAdded(Images(content[..k]));
      }
    }
    assert content[..|content|] == content;
  }

  /** The content message i is left with. */
  method ProjectMessage(budget: Budget, messages: seq<AgentMessage>, index: nat, freshBatchStart: Option<nat>)
    returns (message: AgentMessage)
    requires index < |messages| && freshBatchStart == FreshBatchStart(messages)
    ensures message == ClippedAt(budget, messages, index)
  {
    message := messages[index];
    if !message.ToolResult? {
      return;
    }
    if freshBatchStart.Some? && index >= freshBatchStart.value {
      return;
    }
    hide ClipContent, ContentChars, IsAlreadyMarker, CapFor, FreshBatchStart;
    var cap := CapFor(budget, message.toolName);
    if cap == USIZE_MAX {
      return;
    }
    var original := ContentChars(message.result);
    if original <= cap || IsAlreadyMarker(message.result) {
      return;
    }
    var content := ProjectContent(budget, message, cap);
    message := message.(result := content);
  }

  /** Overwrites contents in place, message by message. */
  method Transform(budget: Budget, messages: seq<AgentMessage>) returns (projected: seq<AgentMessage>)
    ensures projected == Transformed(budget, messages)
  {
    projected := messages;
    var freshBatchStart := FreshBatchStart(messages);
    hide ClippedAt, FreshBatchStart;
    for index := 0 to |messages|
      invariant |projected| == |messages|
      invariant projected[..index] == Clipped(budget, messages, index)
      invariant projected[index..] == messages[index..]
    {
      var message := ProjectMessage(budget, messages, index, freshBatchStart);
      ClippedNext(budget, messages, index);
      hide Clipped;
      Overwritten(projected, message, messages, index);
      projected := projected[index := message];
    }
    assert projected[..|messages|] == projected;
  }

  lemma ClippedNext(budget: Budget, messages: seq<AgentMessage>, n: nat)
    requires n < |messages|
    ensures Clipped(budget, messages, n + 1) == Clipped(budget, messages, n) + [ClippedAt(budget, messages, n)]
  {
  }

  lemma Overwritten<T>(before: seq<T>, x: T, source: seq<T>, i: nat)
    requires i < |before| == |source| && before[i..] == source[i..]
    ensures before[i := x][..i + 1] == before[..i] + [x] && before[i := x][i + 1..] == source[i + 1..]
  {
    assert before[i + 1..] == before[i..][1..] && source[i + 1..] == source[i..][1..];
  }
}

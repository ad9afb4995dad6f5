/**
 The clipping of older tool results, told byte by byte (src/tool_result_budget.rs): which results
 are clipped, and what of their text is left.
 */
module Clipping {
  import opened Wrappers
  import opened Transcript
  import opened Config
  import Utf8
  import opened ToolResultBudget

  // ----- contents

  /** The text of a result: its text blocks' bytes, in order. */
  function Bytes(blocks: seq<ResultBlock>): Utf8.Text {
    if blocks == [] then [] else (if blocks[0].TextBlock? then blocks[0].bytes else []) + Bytes(blocks[1..])
  }

  /** Its images, in order. */
  function Pictures(blocks: seq<ResultBlock>): seq<ResultBlock> {
    if blocks == [] then [] else (if blocks[0].ImageBlock? then [blocks[0]] else []) + Pictures(blocks[1..])
  }

  lemma BytesFirst(blocks: seq<ResultBlock>)
    requires blocks != []
    ensures Bytes(blocks) == (if blocks[0].TextBlock? then blocks[0].bytes else []) + Bytes(blocks[1..])
    ensures Pictures(blocks) == (if blocks[0].ImageBlock? then [blocks[0]] else []) + Pictures(blocks[1..])
  {
  }

  lemma {:induction false} BytesSnoc(blocks: seq<ResultBlock>, last: ResultBlock)
    ensures Bytes(blocks + [last]) == Bytes(blocks) + (if last.TextBlock? then last.bytes else [])
    ensures Pictures(blocks + [last]) == Pictures(blocks) + (if last.ImageBlock? then [last] else [])
  {
    var bytes, pictures := if last.TextBlock? then last.bytes else [], if last.ImageBlock? then [last] else [];
    if blocks == [] {
      assert [last][1..] == [] && blocks + [last] == [last];
      NothingAdded(bytes);
      NothingAdded(pictures);
    } else {
      BytesSnoc(blocks[1..], last);
      BytesFirst(blocks);
      BytesFirst(blocks + [last]);
      hide Bytes, Pictures;
      assert (blocks + [last])[0] == blocks[0] && (blocks + [last])[1..] == blocks[1..] + [last];
      Associate(if blocks[0].TextBlock? then blocks[0].bytes else [], Bytes(blocks[1..]), bytes);
      Associate(if blocks[0].ImageBlock? then [blocks[0]] else [], Pictures(blocks[1..]), pictures);
    }
  }

  lemma {:induction false} ContentsExactly(blocks: seq<ResultBlock>)
    ensures ResultText(blocks) == Bytes(blocks) && ContentChars(blocks) == |Bytes(blocks)|
    ensures Images(blocks) == Pictures(blocks)
    decreases |blocks|
  {
    if blocks != [] {
      ContentsExactly(blocks[..|blocks| - 1]);
      BytesSnoc(blocks[..|blocks| - 1], blocks[|blocks| - 1]);
      SplitLast(blocks);
    }
  }

  /** The text in ASCII, a byte for a character. */
  function Ascii(s: string): Utf8.Text
    requires forall k :: 0 <= k < |s| ==> s[k] as int < 0x80
  {
    seq(|s|, k requires 0 <= k < |s| => s[k] as int as Utf8.byte)
  }

  lemma OneByte(c: char)
    requires c as int < 0x80
    ensures Utf8.EncodeChar(c) == [c as int as Utf8.byte]
  {
  }

  lemma {:induction false} EncodedAscii(s: string)
    requires forall k :: 0 <= k < |s| ==> s[k] as int < 0x80
    ensures Utf8.Encode(s) == Ascii(s)
  {
    if s != [] {
      EncodedAscii(s[1..]);
      OneByte(s[0]);
      hide Utf8.EncodeChar, Utf8.Valid;
      assert Ascii(s) == [s[0] as int as Utf8.byte] + Ascii(s[1..]);
    }
  }

  const MARKER_START := "[tool_result_budget: clipped"

  lemma MarkerIsAscii()
    ensures forall k :: 0 <= k < |MARKER_START| ==> MARKER_START[k] as int < 0x80
  {
    var start := "[tool_result_budget: clipped";
    assert forall k :: 0 <= k < |start| ==> start[k] as int < 0x80;
  }

  /** The text has the part in it. */
  ghost predicate HasPart(text: Utf8.Text, part: Utf8.Text) {
    exists front, back :: text == front + part + back
  }

  /** Some text block quotes the beginning of a marker. */
  ghost predicate QuotesMarker(blocks: seq<ResultBlock>) {
    exists k :: 0 <= k < |blocks| && blocks[k].TextBlock?
                && (MarkerIsAscii(); HasPart(blocks[k].bytes, Ascii(MARKER_START)))
  }

  lemma PartExactly(text: Utf8.Text, part: Utf8.Text)
    ensures Contains(text, part) <==> HasPart(text, part)
  {
    if i: nat :| i <= |text| && OccursAt(text, part, i) {
      assert text == text[..i] + part + text[i + |part|..];
    }
    if front, back :| text == front + part + back {
      assert OccursAt(text, part, |front|);
    }
  }

  lemma QuotesExactly(blocks: seq<ResultBlock>)
    ensures IsAlreadyMarker(blocks) <==> QuotesMarker(blocks)
  {
    MarkerIsAscii();
    EncodedAscii(MARKER_START);
    assert MarkerPrefix() == Ascii(MARKER_START);
    hide MARKER_START, Contains, HasPart, MarkerPrefix, Ascii;
    forall k | 0 <= k < |blocks| && blocks[k].TextBlock?
      ensures Contains(blocks[k].bytes, MarkerPrefix()) <==> HasPart(blocks[k].bytes, Ascii(MARKER_START))
    {
      PartExactly(blocks[k].bytes, MarkerPrefix());
    }
  }

  // ----- which results are clipped

  /** Message i stands behind the last assistant message, and that one calls tools. */
  ghost predicate OfLastBatch(messages: seq<AgentMessage>, i: nat) {
    exists a: nat ::
      && a < i && a < |messages| && messages[a].Assistant?
      && (forall l: nat :: a < l < |messages| ==> !messages[l].Assistant?)
      && exists p: nat :: p < |messages[a].blocks| && messages[a].blocks[p].Call?
  }

  /** The tool's own cap, or the default for one that is unknown or names none. */
  function CapOf(budget: Budget, name: string): Usize {
    if name in budget.registry then
      match budget.registry[name].maxResultChars
      case Some(cap) => cap
      case None => budget.defaultMaxChars
    else budget.defaultMaxChars
  }

  /** An older result beyond its tool's cap, if there is one, that quotes no marker. */
  ghost predicate ToBeClipped(budget: Budget, messages: seq<AgentMessage>, i: nat)
    requires i < |messages|
  {
    && messages[i].ToolResult? && !OfLastBatch(messages, i)
    && CapOf(budget, messages[i].toolName) < 0xFFFF_FFFF_FFFF_FFFF
    && |Bytes(messages[i].result)| > CapOf(budget, messages[i].toolName)
    && !QuotesMarker(messages[i].result)
  }

  lemma {:induction false} LastExactly(messages: seq<AgentMessage>, n: nat)
    requires n <= |messages|
    ensures match LastAssistant(messages, n)
            case Some(a) => a < n && messages[a].Assistant? && forall l: nat :: a < l < n ==> !messages[l].Assistant?
            case None => forall l: nat :: l < n ==> !messages[l].Assistant?
    decreases n
  {
    if n > 0 && !messages[n - 1].Assistant? {
      LastExactly(messages, n - 1);
    }
  }

  lemma {:induction false} SomeCall(blocks: seq<AssistantBlock>)
    ensures BlockCalls(blocks) != [] <==> exists p: nat :: p < |blocks| && blocks[p].Call?
  {
    if blocks != [] && !blocks[0].Call? {
      SomeCall(blocks[1..]);
      if p: nat :| p < |blocks| && blocks[p].Call? {
        assert blocks[1..][p - 1] == blocks[p];
      }
      if p: nat :| p < |blocks[1..]| && blocks[1..][p].Call? {
        assert blocks[p + 1].Call?;
      }
    }
  }

  lemma FreshExactly(messages: seq<AgentMessage>, i: nat)
    requires i < |messages|
    ensures IsFresh(messages, i) <==> OfLastBatch(messages, i)
  {
    LastExactly(messages, |messages|);
    var last := LastAssistant(messages, |messages|);
    if last.Some? {
      SomeCall(messages[last.value].blocks);
    }
    hide LastAssistant, BlockCalls;
    if OfLastBatch(messages, i) {
      var a: nat :|
        && a < i && a < |messages| && messages[a].Assistant?
        && (forall l: nat :: a < l < |messages| ==> !messages[l].Assistant?)
        && exists p: nat :: p < |messages[a].blocks| && messages[a].blocks[p].Call?;
      assert last == Some(a);
    }
  }

  lemma NeedsExactly(budget: Budget, messages: seq<AgentMessage>, i: nat)
    requires i < |messages|
    ensures NeedsClip(budget, messages, i) <==> ToBeClipped(budget, messages, i)
  {
    hide IsFresh, OfLastBatch, ContentChars, Bytes, IsAlreadyMarker, QuotesMarker, CapFor, CapOf, Images, Pictures,
         ResultText;
    FreshExactly(messages, i);
    if messages[i].ToolResult? {
      ContentsExactly(messages[i].result);
      QuotesExactly(messages[i].result);
      CapExactly(budget, messages[i].toolName);
    }
  }

  lemma CapExactly(budget: Budget, name: string)
    ensures CapFor(budget, name) == CapOf(budget, name)
  {
  }

  // ----- what is left of them

  /** Between two characters: at an end, or in front of a byte that is not 10xxxxxx. */
  predicate CutPoint(text: Utf8.Text, i: nat) {
    i == 0 || i == |text| || (i < |text| && !(0x80 <= text[i] <= 0xBF))
  }

  ghost predicate LastCut(text: Utf8.Text, limit: nat, i: nat) {
    i <= limit && CutPoint(text, i) && forall k: nat :: i < k <= limit ==> !CutPoint(text, k)
  }

  ghost predicate FirstCut(text: Utf8.Text, limit: nat, i: nat) {
    limit <= i && CutPoint(text, i) && forall k: nat :: limit <= k < i ==> !CutPoint(text, k)
  }

  /** Room for evidence is what the marker and two blank lines leave; three quarters of it are the head's. */
  function HeadRoom(room: nat): nat {
    (if room * 3 <= 0xFFFF_FFFF_FFFF_FFFF then room * 3 else 0xFFFF_FFFF_FFFF_FFFF) / 4
  }

  /**
   The excerpt of a text: its head, the marker between two blank lines, and its tail, as long as
   the cap allows without cutting a character; or, when there is no room for them, the beginning of
   the marker alone.
   */
  ghost predicate IsExcerpt(text: Utf8.Text, marker: Utf8.Text, cap: nat, excerpt: Utf8.Text) {
    if cap <= |marker| + 4 then
      exists m: nat :: LastCut(marker, if cap <= |marker| then cap else |marker|, m) && m <= |marker|
        && excerpt == marker[..m]
    else
      var room := cap - |marker| - 4;
      var headRoom, tailRoom := HeadRoom(room), room - HeadRoom(room);
      exists head: nat, tail: nat ::
        && LastCut(text, if headRoom <= |text| then headRoom else |text|, head) && head <= |text|
        && FirstCut(text, if tailRoom <= |text| then |text| - tailRoom else 0, tail) && tail <= |text|
        && excerpt == text[..head] + [10, 10] + marker + [10, 10] + text[tail..]
  }

  lemma FloorExactly(text: Utf8.Text, limit: nat)
    requires limit <= |text|
    ensures LastCut(text, limit, Floor(text, limit))
  {
    forall k: nat | Floor(text, limit) < k <= limit ensures !CutPoint(text, k) {
      if CutPoint(text, k) {
        FloorIsGreatest(text, limit, k);
      }
    }
  }

  lemma CeilExactly(text: Utf8.Text, limit: nat)
    requires limit <= |text|
    ensures FirstCut(text, limit, Ceil(text, limit))
  {
    forall k: nat | limit <= k < Ceil(text, limit) ensures !CutPoint(text, k) {
      if CutPoint(text, k) {
        CeilIsLeast(text, limit, k);
      }
    }
  }

  lemma ExcerptExactly(text: Utf8.Text, marker: Utf8.Text, cap: Usize)
    ensures IsExcerpt(text, marker, cap, Excerpt(text, marker, cap))
  {
    if cap <= |marker| + 4 {
      assert cap <= FixedChars(marker);
      FloorExactly(marker, Least(cap, |marker|));
    } else {
      assert FixedChars(marker) == |marker| + 4;
      var head, tail := HeadEnd(text, marker, cap), TailStart(text, marker, cap);
      FloorExactly(text, Least(HeadBudget(marker, cap), |text|));
      CeilExactly(text, SaturatingSub(|text|, TailBudget(marker, cap)));
    }
    hide Floor, Ceil, LastCut, FirstCut;
  }

  /** What clipping leaves of a result: the excerpt of its text, then its images; nothing else changes. */
  ghost predicate ClippedProperly(budget: Budget, before: AgentMessage, after: AgentMessage)
    requires before.ToolResult?
  {
    var text, cap := Bytes(before.result), CapOf(budget, before.toolName);
    exists excerpt ::
      && IsExcerpt(text, budget.marker(before.toolCallId, before.toolName, |text|, cap), cap, excerpt)
      && after == before.(result := [TextBlock(excerpt)] + Pictures(before.result))
  }

  lemma ContentExactly(budget: Budget, message: AgentMessage)
    requires message.ToolResult?
    ensures ClippedProperly(budget, message,
                            message.(result := ClipContent(budget, message, CapFor(budget, message.toolName))))
  {
    var text, cap := Bytes(message.result), CapOf(budget, message.toolName);
    var marker := budget.marker(message.toolCallId, message.toolName, |text|, cap);
    ContentsExactly(message.result);
    ExcerptExactly(text, marker, cap);
    CapExactly(budget, message.toolName);
    hide Bytes, Pictures, ContentChars, ResultText, Images, IsExcerpt, Excerpt, CapOf, CapFor;
  }

  /** Exactly the results to be clipped are clipped, and properly; every other message stays as it is. */
  lemma ClippedExactly(budget: Budget, messages: seq<AgentMessage>, i: nat)
    requires i < |messages|
    ensures if ToBeClipped(budget, messages, i) then
              ClippedProperly(budget, messages[i], Transformed(budget, messages)[i])
            else Transformed(budget, messages)[i] == messages[i]
  {
    ClippedIndex(budget, messages, |messages|, i);
    NeedsExactly(budget, messages, i);
    hide NeedsClip, ToBeClipped, ClipContent, ClippedProperly, Clipped, CapFor;
    if ToBeClipped(budget, messages, i) {
      assert messages[i].ToolResult? by { ClippedIsResult(budget, messages, i); }
      ContentExactly(budget, messages[i]);
    }
  }

  lemma ClippedIsResult(budget: Budget, messages: seq<AgentMessage>, i: nat)
    requires i < |messages| && ToBeClipped(budget, messages, i)
    ensures messages[i].ToolResult?
  {
  }
}

/** How the loop answers turns without tool calls. */
module Reactions {
  import opened Wrappers
  import opened Transcript
  import opened Config
  import opened AgentLoop
  import ThinkingFilter
  import Tokenization
  import Utf8

  // ----- the text a turn shows

  /**
   What a text shows once its thinking blocks are gone: the visible parts of its reading, and a rest
   that begins no tag.
   */
  function ShownIn(text: string): string {
    var r := Tokenization.Read(text);
    Tokenization.VisibleOf(r) + (if r.ending.Outside? then r.ending.rest else [])
  }

  /** The blocks' text, in order, without the thinking, the reasoning and the calls. */
  lemma {:induction false} PlainTextExactly(a: seq<AssistantBlock>, b: seq<AssistantBlock>, block: AssistantBlock)
    ensures PlainText(a + b) == PlainText(a) + PlainText(b)
    ensures PlainText([block]) == if block.Text? then block.text else []
  {
    assert [block][1..] == [] && PlainText([]) == [];
    NothingAdded(if block.Text? then block.text else []);
    if a == [] {
      NothingAdded(b);
      NothingAdded(PlainText(b));
    } else {
      assert (a + b)[1..] == a[1..] + b && (a + b)[0] == a[0];
      PlainTextExactly(a[1..], b, block);
      Associate(if a[0].Text? then a[0].text else [], PlainText(a[1..]), PlainText(b));
    }
  }

  lemma FilteredIsShown(text: string)
    ensures ThinkingFilter.Filtered(text) == ShownIn(text)
  {
    Tokenization.FilterRefinesReading(text);
    hide ThinkingFilter.Fed, Tokenization.Read, Tokenization.VisibleOf;
  }

  /** Nothing but white space. */
  predicate Blank(s: string) {
    forall k :: 0 <= k < |s| ==> ThinkingFilter.IsWhitespace(s[k])
  }

  /** `core` is what is left of s without the white space around it. */
  ghost predicate CoreOf(s: string, core: string) {
    && (exists lead, tail :: Blank(lead) && Blank(tail) && s == lead + core + tail)
    && (core != [] ==> !ThinkingFilter.IsWhitespace(core[0]) && !ThinkingFilter.IsWhitespace(core[|core| - 1]))
  }

  lemma {:induction false} TrimStartLeaves(s: string)
    ensures exists lead :: Blank(lead) && s == lead + ThinkingFilter.TrimStart(s)
  {
    hide ThinkingFilter.IsWhitespace;
    if s != [] && ThinkingFilter.IsWhitespace(s[0]) {
      TrimStartLeaves(s[1..]);
      var rest := ThinkingFilter.TrimStart(s);
      var lead :| Blank(lead) && s[1..] == lead + rest;
      assert Blank([s[0]] + lead);
      SplitFirst(s);
      Associate([s[0]], lead, rest);
    } else {
      assert Blank([]);
      NothingAdded(s);
    }
  }

  lemma {:induction false} TrimEndLeaves(s: string)
    ensures exists tail :: Blank(tail) && s == ThinkingFilter.TrimEnd(s) + tail
    decreases |s|
  {
    hide ThinkingFilter.IsWhitespace;
    if s != [] && ThinkingFilter.IsWhitespace(s[|s| - 1]) {
      TrimEndLeaves(s[..|s| - 1]);
      var rest := ThinkingFilter.TrimEnd(s);
      var tail :| Blank(tail) && s[..|s| - 1] == rest + tail;
      assert Blank(tail + [s[|s| - 1]]);
      SplitLast(s);
      Associate(rest, tail, [s[|s| - 1]]);
    } else {
      assert Blank([]);
      NothingAdded(s);
    }
  }

  /** Trimming removes the white space around a text and nothing else. */
  lemma TrimExactly(s: string)
    ensures CoreOf(s, ThinkingFilter.Trim(s))
  {
    var front, core := ThinkingFilter.TrimStart(s), ThinkingFilter.Trim(s);
    TrimStartLeaves(s);
    TrimEndLeaves(front);
    Tokenization.TrimStartStarts(s);
    Tokenization.TrimEndEnds(front);
    hide ThinkingFilter.TrimStart, ThinkingFilter.TrimEnd, ThinkingFilter.IsWhitespace;
    var lead :| Blank(lead) && s == lead + front;
    var tail :| Blank(tail) && front == core + tail;
    Associate(lead, core, tail);
    assert s == lead + core + tail;
    if core != [] {
      assert core[0] == front[0];
    }
  }

  /** Stripping leaves what the text shows, without the white space around it. */
  lemma StripExactly(text: string)
    ensures CoreOf(ShownIn(text), ThinkingFilter.StripThinkingTags(text))
  {
    FilteredIsShown(text);
    TrimExactly(ThinkingFilter.Filtered(text));
  }

  /** White space is the Unicode White_Space property, 25 characters. */
  lemma WhitespaceExactly(c: char)
    ensures ThinkingFilter.IsWhitespace(c) <==>
            c in {'\t', '\n', '\U{000B}', '\U{000C}', '\r', ' ', '\U{0085}', '\U{00A0}', '\U{1680}', '\U{2000}',
                  '\U{2001}',
                  '\U{2002}', '\U{2003}', '\U{2004}', '\U{2005}', '\U{2006}', '\U{2007}', '\U{2008}', '\U{2009}',
                  '\U{200A}',
                  '\U{2028}', '\U{2029}', '\U{202F}', '\U{205F}', '\U{3000}'}
  {
  }

  /** The text a turn without tool calls would be delivered with: what it shows, without the white space around it. */
  function TextShownBy(message: AgentMessage): string {
    if message.Assistant? then ShownIn(PlainText(message.blocks)) else []
  }

  lemma PlainAssistantTextExactly(message: AgentMessage)
    ensures var text := PlainAssistantText(message);
            if text.Some? then text.value != [] && CoreOf(TextShownBy(message), text.value)
              else Blank(TextShownBy(message))
  {
    if message.Assistant? {
      var shown := ThinkingFilter.Filtered(PlainText(message.blocks));
      FilteredIsShown(PlainText(message.blocks));
      Tokenization.TrimIsIdempotent(shown);
      TrimExactly(shown);
      hide ThinkingFilter.Filtered, ThinkingFilter.Trim, ThinkingFilter.IsWhitespace, ShownIn, PlainText;
      var core := ThinkingFilter.Trim(shown);
      var lead, tail :| Blank(lead) && Blank(tail) && shown == lead + core + tail;
      if core == [] {
        NothingAdded(lead);
      }
    }
  }

  // ----- the reaction

  /** The turn could use no tool but the fallback's and terminal ones, and the fallback's was there. */
  predicate Narrowed(allow: Option<set<string>>, tool: string, terminal: set<string>) {
    allow.Some? && tool in allow.value && allow.value <= terminal + {tool}
  }

  /** The delivery: the fallback tool's result, with the text the turn shows. */
  ghost predicate DeliversText(t: Turn, tool: string) {
    && t.reaction.Deliver? && t.reaction.result.ToolResult? && t.reaction.result.toolName == tool
    && !t.reaction.result.isError
    && exists text ::
         text != [] && CoreOf(TextShownBy(t.assistant), text)
           && t.reaction.result.result == [TextBlock(Utf8.Encode(text))]
  }

  /**
   The reaction to a turn: none if it called tools or there is no fallback; a nudge if the fallback
   nudges eagerly and the turn was not narrowed to it; otherwise, if the fallback is eager or the
   turn was narrowed to it, and the turn shows any text, the delivery of that text.
   */
  ghost predicate ReactsAsItShould(config: LoopConfig, t: Turn) {
    if ToolCalls(t.assistant) != [] || config.fallback.None? then t.reaction.Nothing?
    else
      var fallback := config.fallback.value;
      var narrowed := Narrowed(t.allow, fallback.tool, config.terminalToolNames);
      if fallback.nudge && fallback.eager && !narrowed then t.reaction.Nudge?
      else if (fallback.eager || narrowed) && !Blank(TextShownBy(t.assistant)) then DeliversText(t, fallback.tool)
      else t.reaction.Nothing?
  }

  lemma NarrowedExactly(allow: Option<set<string>>, tool: string, terminal: set<string>)
    ensures IsTerminalOnlyAllowlist(allow, tool, terminal) <==> Narrowed(allow, tool, terminal)
  {
  }

  lemma CoreIsShown(s: string, core: string)
    requires CoreOf(s, core) && core != []
    ensures !Blank(s)
  {
    hide ThinkingFilter.IsWhitespace;
    var lead, tail :| Blank(lead) && Blank(tail) && s == lead + core + tail;
    assert s[|lead|] == core[0];
  }

  lemma ReactionExactly(config: LoopConfig, t: Turn)
    requires Reacted(config, t)
    ensures ReactsAsItShould(config, t)
  {
    if ToolCalls(t.assistant) == [] && config.fallback.Some? {
      var fallback, text := config.fallback.value, PlainAssistantText(t.assistant);
      PlainAssistantTextExactly(t.assistant);
      NarrowedExactly(t.allow, fallback.tool, config.terminalToolNames);
      if text.Some? {
        CoreIsShown(TextShownBy(t.assistant), text.value);
      }
      hide PlainAssistantText, TextShownBy, Blank, CoreOf, Narrowed, IsTerminalOnlyAllowlist;
    }
  }

  /** Every recorded turn of every run was reacted to so. */
  lemma ReactionsExactly(config: LoopConfig, start: LoopState, script: seq<TurnScript>, n: nat, k: nat)
    requires Fresh(start) && n <= |script| && k < |RunTo(config, start, script, n).turns|
    ensures ReactsAsItShould(config, RunTo(config, start, script, n).turns[k])
  {
    RunLaws(config, start, script, n);
    var s := RunTo(config, start, script, n);
    hide RunTo, Reacted, ReactsAsItShould, StopsRun, AnswersEach, Performed, Books, Interrupted, Continues, Final;
    assert Proper(config, start, s.turns, k);
    ReactionExactly(config, s.turns[k]);
  }
}

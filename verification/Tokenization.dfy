/**
 What the streaming filter computes, declaratively. A reading of a text takes it apart into visible
 lexemes, opening tags, hidden lexemes and closing tags, and an ending that is still undecided.
 Every text has exactly one reading, and the filter's output and its fields after any number of
 deltas are parts of that reading; what holds of readings therefore holds of the filter, however
 the text was cut into deltas.
 */
module Tokenization {
  import opened Wrappers
  import opened ThinkingTags
  import opened ThinkingFilter

  /*
   A text is visible lexemes, an opening tag, hidden lexemes, a closing tag, visible lexemes, and
   so on, and has exactly one such reading.
   */

  /** A candidate that could still become a tag after each of its characters. */
  predicate Undecided(w: string, closing: bool) {
    && w != [] && w[0] == '<'
    && forall k :: 2 <= k <= |w| ==> Classify(w[..k], closing).Possible?
  }

  /** A piece of text: one character, or a candidate together with the character that ruled it out. */
  predicate Lexeme(w: string, closing: bool) {
    || (|w| == 1 && w[0] != '<')
    || (|w| >= 2 && Undecided(w[..|w| - 1], closing) && Classify(w, closing).No?)
  }

  /** A recognized tag: a candidate together with the character that completed it. */
  predicate TagToken(w: string, closing: bool) {
    |w| >= 2 && Undecided(w[..|w| - 1], closing) && Classify(w, closing).Complete?
  }

  predicate Lexemes(ws: seq<string>, closing: bool) {
    forall k :: 0 <= k < |ws| ==> Lexeme(ws[k], closing)
  }

  /** Visible text followed by one complete thinking block. */
  datatype Block = Block(before: seq<string>, open: string, thought: seq<string>, close: string)

  /**
   How a reading ends: outside any tag, or inside one that is not closed; either way with a possibly
   undecided rest.
   */
  datatype Ending = Outside(rest: string) | Inside(open: string, thought: seq<string>, rest: string)

  datatype Reading = Reading(blocks: seq<Block>, visible: seq<string>, ending: Ending)

  predicate ValidBlock(b: Block) {
    Lexemes(b.before, false) && TagToken(b.open, false) && Lexemes(b.thought, true) && TagToken(b.close, true)
  }

  predicate ValidEnding(e: Ending) {
    match e
    case Outside(rest) => rest == [] || Undecided(rest, false)
    case Inside(open, thought, rest) =>
      TagToken(open, false) && Lexemes(thought, true) && (rest == [] || Undecided(rest, true))
  }

  predicate ValidReading(r: Reading) {
    && (forall k :: 0 <= k < |r.blocks| ==> ValidBlock(r.blocks[k]))
    && Lexemes(r.visible, false)
    && ValidEnding(r.ending)
  }

  function Joined(ws: seq<string>): string {
    if ws == [] then [] else Joined(ws[..|ws| - 1]) + ws[|ws| - 1]
  }

  function BlockText(b: Block): string {
    Joined(b.before) + b.open + Joined(b.thought) + b.close
  }

  function BlocksText(bs: seq<Block>): string {
    if bs == [] then [] else BlocksText(bs[..|bs| - 1]) + BlockText(bs[|bs| - 1])
  }

  /** The decided part of a reading's text. */
  function Stem(r: Reading): string {
    match r.ending
    case Outside(_) => BlocksText(r.blocks) + Joined(r.visible)
    case Inside(open, thought, _) => BlocksText(r.blocks) + Joined(r.visible) + open + Joined(thought)
  }

  /** The text a reading reads: nothing is added, dropped or reordered. */
  function TextOf(r: Reading): string {
    Stem(r) + r.ending.rest
  }

  function BlocksVisible(bs: seq<Block>): string {
    if bs == [] then [] else BlocksVisible(bs[..|bs| - 1]) + Joined(bs[|bs| - 1].before)
  }

  /** The text outside thinking blocks, without an undecided rest. */
  function VisibleOf(r: Reading): string {
    BlocksVisible(r.blocks) + Joined(r.visible)
  }

  // ----- reading a text one character at a time

  /** The candidate stays undecided. */
  function Keep(r: Reading, piece: string): Reading {
    r.(ending := r.ending.(rest := piece))
  }

  /** The piece is text: visible or hidden, depending on where the reading stands. */
  function Settle(r: Reading, piece: string): Reading {
    match r.ending
    case Outside(_) => Reading(r.blocks, r.visible + [piece], Outside([]))
    case Inside(open, thought, _) => Reading(r.blocks, r.visible, Inside(open, thought + [piece], []))
  }

  /** The piece is a tag: it opens a block, or closes the open one. */
  function Turn(r: Reading, piece: string): Reading {
    match r.ending
    case Outside(_) => Reading(r.blocks, r.visible, Inside(piece, [], []))
    case Inside(open, thought, _) => Reading(r.blocks + [Block(r.visible, open, thought, piece)], [], Outside([]))
  }

  function Extend(r: Reading, c: char): Reading {
    var piece := r.ending.rest + [c];
    if |piece| == 1 then
      if c == '<' then Keep(r, piece) else Settle(r, piece)
    else
      match Classify(piece, r.ending.Inside?)
      case Complete => Turn(r, piece)
      case Possible => Keep(r, piece)
      case No => Settle(r, piece)
  }

  const NOTHING_READ: Reading := Reading([], [], Outside([]))

  function Extended(r: Reading, text: string): Reading {
    if text == [] then r else Extend(Extended(r, text[..|text| - 1]), text[|text| - 1])
  }

  function Read(text: string): Reading {
    Extended(NOTHING_READ, text)
  }

  // ----- every text has a reading

  lemma UndecidedExtends(w: string, c: char, closing: bool)
    requires Undecided(w, closing) && Classify(w + [c], closing).Possible?
    ensures Undecided(w + [c], closing)
  {
    forall k | 2 <= k <= |w + [c]| ensures Classify((w + [c])[..k], closing).Possible? {
      if k <= |w| {
        assert (w + [c])[..k] == w[..k];
      } else {
        assert (w + [c])[..k] == w + [c];
      }
    }
  }

  lemma JoinedAppend(ws: seq<string>, w: string)
    ensures Joined(ws + [w]) == Joined(ws) + w
  {
    assert (ws + [w])[..|ws|] == ws;
  }

  lemma BlocksAppend(bs: seq<Block>, b: Block)
    ensures BlocksText(bs + [b]) == BlocksText(bs) + BlockText(b)
    ensures BlocksVisible(bs + [b]) == BlocksVisible(bs) + Joined(b.before)
  {
    assert (bs + [b])[..|bs|] == bs;
  }

  /** What one more character makes of a candidate. */
  lemma PieceKind(rest: string, c: char, closing: bool)
    requires rest == [] || Undecided(rest, closing)
    ensures var piece := rest + [c];
            if |piece| == 1 then (if c == '<' then Undecided(piece, closing) else Lexeme(piece, closing))
            else match Classify(piece, closing)
                 case Complete => TagToken(piece, closing)
                 case Possible => Undecided(piece, closing)
                 case No => Lexeme(piece, closing)
  {
    var piece := rest + [c];
    assert piece[..|piece| - 1] == rest;
    if rest != [] && Classify(piece, closing).Possible? {
      UndecidedExtends(rest, c, closing);
    }
    hide Classify;
  }

  lemma SettleValid(r: Reading, piece: string)
    requires ValidReading(r) && Lexeme(piece, r.ending.Inside?)
    ensures ValidReading(Settle(r, piece))
  {
    hide Lexeme, TagToken, Undecided, ValidBlock;
  }

  lemma TurnValid(r: Reading, piece: string)
    requires ValidReading(r) && TagToken(piece, r.ending.Inside?)
    ensures ValidReading(Turn(r, piece))
  {
    hide Lexeme, TagToken, Undecided;
  }

  lemma ExtendValid(r: Reading, c: char)
    requires ValidReading(r)
    ensures ValidReading(Extend(r, c))
  {
    var piece := r.ending.rest + [c];
    PieceKind(r.ending.rest, c, r.ending.Inside?);
    hide Classify, Lexeme, TagToken, Undecided, Settle, Turn, ValidBlock;
    if Extend(r, c) == Settle(r, piece) && Lexeme(piece, r.ending.Inside?) {
      SettleValid(r, piece);
    } else if Extend(r, c) == Turn(r, piece) && TagToken(piece, r.ending.Inside?) {
      TurnValid(r, piece);
    }
  }

  lemma SettleStem(r: Reading, piece: string)
    ensures Stem(Settle(r, piece)) == Stem(r) + piece && Settle(r, piece).ending.rest == []
  {
    JoinedAppend(r.visible, piece);
    if r.ending.Inside? {
      JoinedAppend(r.ending.thought, piece);
    }
    hide Joined, BlocksText;
  }

  lemma Regroup(a: string, b: string, o: string, t: string, piece: string)
    ensures a + (b + o + t + piece) + [] == a + b + o + t + piece
  {
  }

  lemma TurnStem(r: Reading, piece: string)
    ensures Stem(Turn(r, piece)) == Stem(r) + piece && Turn(r, piece).ending.rest == []
  {
    assert Joined([]) == [];
    if r.ending.Inside? {
      BlocksAppend(r.blocks, Block(r.visible, r.ending.open, r.ending.thought, piece));
      Regroup(BlocksText(r.blocks), Joined(r.visible), r.ending.open, Joined(r.ending.thought), piece);
    }
    hide Joined, BlocksText;
  }

  lemma ExtendCases(r: Reading, c: char)
    ensures var piece := r.ending.rest + [c];
            Extend(r, c) == Keep(r, piece) || Extend(r, c) == Settle(r, piece) || Extend(r, c) == Turn(r, piece)
  {
  }

  lemma ExtendText(r: Reading, c: char)
    ensures TextOf(Extend(r, c)) == TextOf(r) + [c]
  {
    var piece := r.ending.rest + [c];
    SettleStem(r, piece);
    TurnStem(r, piece);
    assert Stem(Keep(r, piece)) == Stem(r) && Keep(r, piece).ending.rest == piece;
    ExtendCases(r, c);
    NothingAdded(Stem(r) + piece);
    hide Stem, Settle, Turn, Keep, Extend;
    assert Stem(r) + piece == TextOf(r) + [c];
  }

  lemma {:induction false} ReadIsValid(text: string)
    ensures ValidReading(Read(text)) && TextOf(Read(text)) == text
    decreases |text|
  {
    if text != [] {
      var front, last := text[..|text| - 1], text[|text| - 1];
      ReadIsValid(front);
      SplitLast(text);
      assert Read(text) == Extend(Read(front), last);
      ExtendValid(Read(front), last);
      ExtendText(Read(front), last);
      hide *;
    } else {
      assert TextOf(NOTHING_READ) == [];
    }
  }

  // ----- and only one

  lemma ExtendedSnoc(r: Reading, text: string, c: char)
    ensures Extended(r, text + [c]) == Extend(Extended(r, text), c)
  {
    assert (text + [c])[..|text|] == text;
  }

  lemma ExtendedConcatSnoc(r: Reading, a: string, b: string, c: char)
    requires Extended(r, a + b) == Extended(Extended(r, a), b)
    ensures Extended(r, a + (b + [c])) == Extended(Extended(r, a), b + [c])
  {
    ExtendedSnoc(r, a + b, c);
    ExtendedSnoc(Extended(r, a), b, c);
    hide *;
    assert a + (b + [c]) == (a + b) + [c];
  }

  lemma {:induction false} ExtendedConcat(r: Reading, a: string, b: string)
    ensures Extended(r, a + b) == Extended(Extended(r, a), b)
    decreases |b|
  {
    if b == [] {
      assert a + b == a;
    } else {
      ExtendedConcat(r, a, b[..|b| - 1]);
      ExtendedConcatSnoc(r, a, b[..|b| - 1], b[|b| - 1]);
      SplitLast(b);
    }
  }

  lemma UndecidedShorter(w: string, closing: bool)
    requires Undecided(w, closing) && |w| > 1
    ensures Undecided(w[..|w| - 1], closing) && Classify(w, closing).Possible?
  {
    var front := w[..|w| - 1];
    forall k | 2 <= k <= |front| ensures Classify(front[..k], closing).Possible? {
      assert front[..k] == w[..k];
    }
    assert w[..|w|] == w;
  }

  /** A candidate is kept as the undecided rest as long as it is undecided. */
  lemma {:induction false} ExtendedUndecided(r: Reading, w: string)
    requires r.ending.rest == [] && Undecided(w, r.ending.Inside?)
    ensures Extended(r, w) == Keep(r, w)
    decreases |w|
  {
    var front, last := w[..|w| - 1], w[|w| - 1];
    assert front + [last] == w;
    ExtendedSnoc(r, front, last);
    if |w| == 1 {
      assert Extended(r, front) == r && r.ending.rest + [last] == w;
    } else {
      UndecidedShorter(w, r.ending.Inside?);
      ExtendedUndecided(r, front);
    }
    hide Extended, Classify, Undecided;
  }

  /** The last character of a longer piece decides it. */
  lemma ExtendedLast(r: Reading, w: string)
    requires |w| >= 2 && r.ending.rest == [] && Undecided(w[..|w| - 1], r.ending.Inside?)
    ensures Extended(r, w) == Extend(Keep(r, w[..|w| - 1]), w[|w| - 1])
  {
    ExtendedUndecided(r, w[..|w| - 1]);
    ExtendedSnoc(r, w[..|w| - 1], w[|w| - 1]);
    SplitLast(w);
    hide *;
  }

  lemma ExtendedLexeme(r: Reading, w: string)
    requires r.ending.rest == [] && Lexeme(w, r.ending.Inside?)
    ensures Extended(r, w) == Settle(r, w)
  {
    hide Classify;
    if |w| == 1 {
      assert w[..0] == [] && [] + [w[0]] == w;
      ExtendedSnoc(r, [], w[0]);
      assert r.ending.rest + [w[0]] == w;
    } else {
      ExtendedLast(r, w);
      hide Extended, Undecided;
      assert w[..|w| - 1] + [w[|w| - 1]] == w;
    }
  }

  lemma ExtendedTag(r: Reading, w: string)
    requires r.ending.rest == [] && TagToken(w, r.ending.Inside?)
    ensures Extended(r, w) == Turn(r, w)
  {
    hide Classify;
    ExtendedLast(r, w);
    hide Extended, Undecided;
    assert w[..|w| - 1] + [w[|w| - 1]] == w;
  }

  /** The reading r with the lexemes `ws` added where it stands. */
  function WithLexemes(r: Reading, ws: seq<string>): Reading {
    if ws == [] then r else Settle(WithLexemes(r, ws[..|ws| - 1]), ws[|ws| - 1])
  }

  lemma {:induction false} WithLexemesIs(r: Reading, ws: seq<string>)
    requires r.ending.rest == []
    ensures WithLexemes(r, ws) == match r.ending
                                  case Outside(_) => Reading(r.blocks, r.visible + ws, Outside([]))
                                  case Inside(open, thought, _) => Reading(r.blocks, r.visible,
                                      Inside(open, thought + ws, []))
    decreases |ws|
  {
    if ws == [] {
      assert r.visible + [] == r.visible;
      if r.ending.Inside? { assert r.ending.thought + [] == r.ending.thought; }
    } else {
      var front, last := ws[..|ws| - 1], ws[|ws| - 1];
      WithLexemesIs(r, front);
      assert front + [last] == ws;
      assert (r.visible + front) + [last] == r.visible + ws;
      if r.ending.Inside? { assert (r.ending.thought + front) + [last] == r.ending.thought + ws; }
    }
  }

  lemma {:induction false} ExtendedLexemes(r: Reading, ws: seq<string>)
    requires r.ending.rest == [] && Lexemes(ws, r.ending.Inside?)
    ensures Extended(r, Joined(ws)) == WithLexemes(r, ws)
    decreases |ws|
  {
    if ws != [] {
      var front, last := ws[..|ws| - 1], ws[|ws| - 1];
      assert Joined(ws) == Joined(front) + last && WithLexemes(r, ws) == Settle(WithLexemes(r, front), last);
      assert Lexeme(last, r.ending.Inside?) && Lexemes(front, r.ending.Inside?);
      WithLexemesIs(r, front);
      ExtendedLexemes(r, front);
      hide Extended, Joined, Lexeme, Lexemes, WithLexemes, Settle;
      ExtendedConcat(r, Joined(front), last);
      ExtendedLexeme(WithLexemes(r, front), last);
    }
  }

  /** From a settled point outside, visible lexemes are added to the visible text. */
  lemma ExtendedVisible(bs: seq<Block>, ws: seq<string>)
    requires Lexemes(ws, false)
    ensures Extended(Reading(bs, [], Outside([])), Joined(ws)) == Reading(bs, ws, Outside([]))
  {
    ExtendedLexemes(Reading(bs, [], Outside([])), ws);
    WithLexemesIs(Reading(bs, [], Outside([])), ws);
    assert [] + ws == ws;
  }

  lemma ExtendedOpened(bs: seq<Block>, visible: seq<string>, open: string, thought: seq<string>)
    requires TagToken(open, false) && Lexemes(thought, true)
    ensures Extended(Reading(bs, visible, Outside([])), open + Joined(thought))
            == Reading(bs, visible, Inside(open, thought, []))
  {
    var r, r1 := Reading(bs, visible, Outside([])), Reading(bs, visible, Inside(open, [], []));
    ExtendedTag(r, open);
    ExtendedLexemes(r1, thought);
    WithLexemesIs(r1, thought);
    assert [] + thought == thought;
    ExtendedConcat(r, open, Joined(thought));
  }

  lemma BlockTextIs(b: Block)
    ensures BlockText(b) == (Joined(b.before) + (b.open + Joined(b.thought))) + b.close
  {
    hide Joined;
  }

  lemma ExtendedBlock(bs: seq<Block>, b: Block)
    requires ValidBlock(b)
    ensures Extended(Reading(bs, [], Outside([])), BlockText(b)) == Reading(bs + [b], [], Outside([]))
  {
    var r := Reading(bs, [], Outside([]));
    ExtendedVisible(bs, b.before);
    ExtendedOpened(bs, b.before, b.open, b.thought);
    var r1 := Reading(bs, b.before, Inside(b.open, b.thought, []));
    ExtendedTag(r1, b.close);
    assert b == Block(b.before, b.open, b.thought, b.close);
    BlockTextIs(b);
    ExtendedConcat(r, Joined(b.before), b.open + Joined(b.thought));
    ExtendedConcat(r, Joined(b.before) + (b.open + Joined(b.thought)), b.close);
    hide Extended, BlockText, Joined;
  }

  lemma {:induction false} ExtendedBlocks(bs: seq<Block>)
    requires forall k :: 0 <= k < |bs| ==> ValidBlock(bs[k])
    ensures Read(BlocksText(bs)) == Reading(bs, [], Outside([]))
    decreases |bs|
  {
    if bs != [] {
      var front, last := bs[..|bs| - 1], bs[|bs| - 1];
      assert BlocksText(bs) == BlocksText(front) + BlockText(last);
      SplitLast(bs);
      ExtendedBlocks(front);
      ExtendedBlock(front, last);
      ExtendedConcat(NOTHING_READ, BlocksText(front), BlockText(last));
      hide *;
    }
  }

  lemma ReadStem(r: Reading)
    requires ValidReading(r)
    ensures Read(Stem(r)) == Keep(r, [])
  {
    var at, shown := BlocksText(r.blocks), Joined(r.visible);
    ExtendedBlocks(r.blocks);
    ExtendedVisible(r.blocks, r.visible);
    ExtendedConcat(NOTHING_READ, at, shown);
    if r.ending.Inside? {
      var open, thought := r.ending.open, r.ending.thought;
      ExtendedOpened(r.blocks, r.visible, open, thought);
      ExtendedConcat(NOTHING_READ, at + shown, open + Joined(thought));
      assert at + shown + (open + Joined(thought)) == Stem(r);
    }
    hide Extended, Joined, BlocksText;
  }

  /** A text has no valid reading but the one its characters determine. */
  lemma ReadingIsUnique(r: Reading)
    requires ValidReading(r)
    ensures Read(TextOf(r)) == r
  {
    ReadStem(r);
    ExtendedConcat(NOTHING_READ, Stem(r), r.ending.rest);
    if r.ending.rest == [] {
      assert Stem(r) + [] == Stem(r);
    } else {
      ExtendedUndecided(Keep(r, []), r.ending.rest);
    }
  }

  // ----- the filter computes the reading's visible text

  /** The filter state that corresponds to a reading. */
  ghost predicate Mirrors(p: Progress, r: Reading) {
    && p.out == VisibleOf(r)
    && p.state.pending == r.ending.rest
    && p.state.inside == r.ending.Inside?
    && p.state.thought == (if r.ending.Inside? then Some(Joined(r.ending.thought)) else None)
    && p.state.completed == (if r.blocks == [] then None else Some(Joined(r.blocks[|r.blocks| - 1].thought)))
  }

  lemma MirrorSettle(p: Progress, r: Reading, piece: string)
    requires Mirrors(p, r)
    ensures r.ending.Outside? ==> Mirrors(Progress(p.state.(pending := []), p.out + piece), Settle(r, piece))
    ensures r.ending.Inside? ==>
              Mirrors(Progress(p.state.(pending := [], thought := Some(p.state.thought.value + piece)), p.out),
                      Settle(r, piece))
  {
    JoinedAppend(r.visible, piece);
    if r.ending.Inside? {
      JoinedAppend(r.ending.thought, piece);
    }
    hide Joined, BlocksVisible;
  }

  lemma MirrorTurn(p: Progress, r: Reading, piece: string)
    requires Mirrors(p, r)
    ensures r.ending.Outside? ==>
            Mirrors(Progress(FilterState(true, [], Some([]), p.state.completed), p.out), Turn(r, piece))
    ensures r.ending.Inside? ==> Mirrors(Progress(FilterState(false, [], None, p.state.thought), p.out), Turn(r, piece))
  {
    assert Joined([]) == [];
    if r.ending.Inside? {
      BlocksAppend(r.blocks, Block(r.visible, r.ending.open, r.ending.thought, piece));
    }
    hide Joined, BlocksVisible;
    if r.ending.Inside? {
      assert BlocksVisible(r.blocks) + Joined(r.visible) + [] == p.out;
    }
  }

  lemma MirrorStep(p: Progress, r: Reading, c: char)
    requires Mirrors(p, r)
    ensures var step := Consume(p.state, c); Mirrors(Progress(step.state, p.out + step.out), Extend(r, c))
  {
    var piece := r.ending.rest + [c];
    MirrorSettle(p, r, piece);
    MirrorTurn(p, r, piece);
    assert Mirrors(Progress(p.state.(pending := piece), p.out), Keep(r, piece));
    assert p.state.inside ==> p.state.thought.Some?;
    assert p.state.pending == r.ending.rest && p.state.inside == r.ending.Inside?;
    hide Mirrors, Settle, Turn, Keep, Classify;
    assert p.out + [] == p.out;
    assert r.ending.rest == [] ==> piece == [c];
  }

  /**
   Refinement: after any text the filter has emitted exactly the visible text of the text's one
   reading; it holds the undecided rest, the thought so far iff it is inside a tag, and the last
   closed thought.
   */
  lemma {:induction false} FilterRefinesReading(text: string)
    ensures Mirrors(Fed(INITIAL, text), Read(text))
    decreases |text|
  {
    if text != [] {
      var front := text[..|text| - 1];
      FilterRefinesReading(front);
      hide Mirrors, Consume, Extend;
      MirrorStep(Fed(INITIAL, front), Read(front), text[|text| - 1]);
    }
  }

  lemma LoneBracket()
    ensures Canonical("<") == "<"
  {
    assert "<"[1..] == [];
  }

  /** What is pending is the beginning of a tag and at most 12 canonical characters long. */
  lemma PendingIsTagPrefix(text: string)
    ensures var s := Fed(INITIAL, text).state;
            s.pending == [] || (&& |Canonical(s.pending)| <= 12
                                && exists t :: t in THINKING_TAGS && Canonical(s.pending) < FullTag(t, s.inside))
  {
    FilterRefinesReading(text);
    ReadIsValid(text);
    var s := Fed(INITIAL, text).state;
    hide Fed, Read, Canonical, Classify;
    if |s.pending| >= 2 {
      assert s.pending[..|s.pending|] == s.pending;
      PossibleIsProperPrefix(s.pending, s.inside);
    } else if |s.pending| == 1 {
      LoneBracket();
      assert s.pending == "<";
      assert "think" == THINKING_TAGS[0] && "think" in THINKING_TAGS;
      assert "<" < FullTag("think", s.inside);
    }
  }

  // ----- chunking

  lemma FedSnoc(s: FilterState, text: string, c: char)
    ensures var before := Fed(s, text);
            Fed(s, text + [c]) == Progress(Consume(before.state, c).state, before.out + Consume(before.state, c).out)
  {
    assert (text + [c])[..|text|] == text;
  }

  lemma TwoBrackets()
    ensures Canonical("<<") == "<<"
  {
    assert "<<"[1..] == "<";
    assert Squeezed("<") == "<" by {
      assert "<"[..0] == [];
      assert Squeezed([]) == [];
    }
  }

  lemma NoTagDoubles(tag: string)
    requires tag in THINKING_TAGS
    ensures !("<<" <= FullTag(tag, false))
  {
    assert tag[0] != '<';
    assert FullTag(tag, false)[1] == tag[0];
  }

  lemma TwoBracketsNoTag()
    ensures Classify("<<", false).No?
  {
    TwoBrackets();
    hide Canonical, FullTag, ClassifyAmong;
    TagTableIsPlain();
    ClassifyExact(THINKING_TAGS, "<<", false);
    forall t | t in THINKING_TAGS ensures !("<<" <= FullTag(t, false)) {
      NoTagDoubles(t);
    }
  }

  /** "<<" begins no tag: the second bracket rules the first one out and is given out with it. */
  lemma DoubledBracket()
    ensures Fed(INITIAL, "<<") == Progress(INITIAL, "<<")
  {
    TwoBracketsNoTag();
    hide Classify;
    var one := FilterState(false, "<", None, None);
    assert "" + "<" == "<" && "<" + "<" == "<<";
    assert Consume(INITIAL, '<') == Progress(one, "") && Consume(one, '<') == Progress(INITIAL, "<<");
    FedSnoc(INITIAL, "", '<');
    FedSnoc(INITIAL, "<", '<');
    hide Consume;
    assert Fed(INITIAL, "") == Progress(INITIAL, "");
    NothingAdded("");
    NothingAdded("<<");
  }

  /**
   A doubled bracket hides nothing: what stands behind it is visible up to the next bracket, even the
   rest of a tag.
   */
  lemma {:induction false} DoubledBracketHidesNothing(rest: string)
    requires '<' !in rest
    ensures Fed(INITIAL, "<<" + rest) == Progress(INITIAL, "<<" + rest)
    decreases |rest|
  {
    if rest == [] {
      DoubledBracket();
      NothingAdded("<<");
    } else {
      var front, last := rest[..|rest| - 1], rest[|rest| - 1];
      DoubledBracketHidesNothing(front);
      PlainCharShown(last);
      hide *;
      FedSnoc(INITIAL, "<<" + front, last);
      SplitLast(rest);
      OneMore("<<", front, last);
    }
  }

  lemma PlainCharShown(c: char)
    requires c != '<'
    ensures Consume(INITIAL, c) == Progress(INITIAL, [c])
  {
  }

  /** The progress of feeding b after a. */
  function FedAfter(s: FilterState, a: string, b: string): Progress {
    var first := Fed(s, a);
    var second := Fed(first.state, b);
    Progress(second.state, first.out + second.out)
  }

  lemma FedConcatSnoc(s: FilterState, a: string, b: string, c: char)
    requires Fed(s, a + b) == FedAfter(s, a, b)
    ensures Fed(s, a + (b + [c])) == FedAfter(s, a, b + [c])
  {
    FedSnoc(s, a + b, c);
    FedSnoc(Fed(s, a).state, b, c);
    hide Fed, Consume;
    assert a + (b + [c]) == (a + b) + [c];
  }

  lemma {:induction false} FedConcat(s: FilterState, a: string, b: string)
    ensures Fed(s, a + b) == FedAfter(s, a, b)
    decreases |b|
  {
    if b == [] {
      assert a + b == a;
      assert Fed(s, a).out + [] == Fed(s, a).out;
    } else {
      FedConcat(s, a, b[..|b| - 1]);
      FedConcatSnoc(s, a, b[..|b| - 1], b[|b| - 1]);
      SplitLast(b);
    }
  }

  /** Feeding chunk after chunk. */
  function FedChunks(s: FilterState, chunks: seq<string>): Progress {
    if chunks == [] then Progress(s, [])
    else
      var before := FedChunks(s, chunks[..|chunks| - 1]);
      var last := Fed(before.state, chunks[|chunks| - 1]);
      Progress(last.state, before.out + last.out)
  }

  /** Where the stream is cut into chunks changes neither what is emitted nor the state. */
  lemma {:induction false} ChunkingIrrelevant(s: FilterState, chunks: seq<string>)
    ensures FedChunks(s, chunks) == Fed(s, Joined(chunks))
    decreases |chunks|
  {
    if chunks != [] {
      var front, last := chunks[..|chunks| - 1], chunks[|chunks| - 1];
      ChunkingIrrelevant(s, front);
      FedConcat(s, Joined(front), last);
    }
  }

  // ----- stripping is idempotent

  /** The visible lexemes of the complete blocks. */
  function BlocksLexemes(bs: seq<Block>): seq<string> {
    if bs == [] then [] else BlocksLexemes(bs[..|bs| - 1]) + bs[|bs| - 1].before
  }

  lemma {:induction false} JoinedConcat(a: seq<string>, b: seq<string>)
    ensures Joined(a + b) == Joined(a) + Joined(b)
    decreases |b|
  {
    if b == [] {
      assert a + b == a;
    } else {
      var front, last := b[..|b| - 1], b[|b| - 1];
      JoinedConcat(a, front);
      SplitLast(b);
      JoinedConcatSnoc(a, front, last);
    }
  }

  lemma JoinedConcatSnoc(a: seq<string>, b: seq<string>, w: string)
    requires Joined(a + b) == Joined(a) + Joined(b)
    ensures Joined(a + (b + [w])) == Joined(a) + Joined(b + [w])
  {
    JoinedAppend(a + b, w);
    JoinedAppend(b, w);
    hide *;
    assert a + (b + [w]) == (a + b) + [w];
    assert Joined(a) + (Joined(b) + w) == (Joined(a) + Joined(b)) + w;
  }

  lemma {:induction false} BlocksLexemesExact(bs: seq<Block>)
    requires forall k :: 0 <= k < |bs| ==> ValidBlock(bs[k])
    ensures Lexemes(BlocksLexemes(bs), false) && Joined(BlocksLexemes(bs)) == BlocksVisible(bs)
    decreases |bs|
  {
    if bs != [] {
      var front, last := bs[..|bs| - 1], bs[|bs| - 1];
      assert ValidBlock(last);
      BlocksLexemesExact(front);
      JoinedConcat(BlocksLexemes(front), last.before);
      hide Lexeme, Joined, TagToken;
    }
  }

  /** A text without any thinking tag: visible lexemes and possibly an undecided rest. */
  ghost predicate Untagged(text: string) {
    ValidReading(Read(text)) && Read(text).blocks == [] && Read(text).ending.Outside?
  }

  lemma PlainTextOf(ws: seq<string>, rest: string)
    ensures TextOf(Reading([], ws, Outside(rest))) == Joined(ws) + rest
    ensures VisibleOf(Reading([], ws, Outside(rest))) == Joined(ws)
  {
    NothingAdded(Joined(ws));
    hide Joined;
  }

  lemma UntaggedIs(ws: seq<string>, rest: string)
    requires Lexemes(ws, false) && (rest == [] || Undecided(rest, false))
    ensures Read(Joined(ws) + rest) == Reading([], ws, Outside(rest)) && Untagged(Joined(ws) + rest)
  {
    var r := Reading([], ws, Outside(rest));
    assert ValidReading(r);
    ReadingIsUnique(r);
    PlainTextOf(ws, rest);
    hide Read, Joined, TextOf, ValidReading;
  }

  lemma UntaggedText(text: string)
    requires Untagged(text)
    ensures var r := Read(text);
            && Lexemes(r.visible, false) && (r.ending.rest == [] || Undecided(r.ending.rest, false))
            && text == Joined(r.visible) + r.ending.rest
            && r == Reading([], r.visible, Outside(r.ending.rest))
  {
    ReadIsValid(text);
    var r := Read(text);
    PlainTextOf(r.visible, r.ending.rest);
    hide Read, Joined, TextOf, Lexemes, Undecided;
  }

  /** What the filter emits, with the flush, is untagged. */
  lemma FilteredIsUntagged(text: string)
    ensures Untagged(Filtered(text))
  {
    var r, p := Read(text), Fed(INITIAL, text);
    ReadIsValid(text);
    FilterRefinesReading(text);
    BlocksLexemesExact(r.blocks);
    JoinedConcat(BlocksLexemes(r.blocks), r.visible);
    var ws := BlocksLexemes(r.blocks) + r.visible;
    var rest := if r.ending.Inside? then [] else r.ending.rest;
    assert Filtered(text) == Joined(ws) + rest;
    UntaggedIs(ws, rest);
  }

  /** Untagged text passes through unchanged. */
  lemma UntaggedPasses(text: string)
    requires Untagged(text)
    ensures Filtered(text) == text
  {
    UntaggedText(text);
    FilterRefinesReading(text);
    PlainTextOf(Read(text).visible, Read(text).ending.rest);
    hide Read, Joined, VisibleOf, Lexemes, Undecided, Fed;
  }

  lemma FirstLexeme(ws: seq<string>)
    requires Lexemes(ws, false) && ws != []
    ensures Joined(ws) == ws[0] + Joined(ws[1..]) && Lexemes(ws[1..], false)
  {
    SplitFirst(ws);
    JoinedConcat([ws[0]], ws[1..]);
    JoinedAppend([], ws[0]);
    NothingAdded([ws[0]]);
    NothingAdded(ws[0]);
    assert Joined([]) == [];
    hide Lexeme, Joined;
  }

  lemma WithoutFirst(w: string, more: string, rest: string)
    requires |w| == 1
    ensures (w + more + rest)[0] == w[0] && (w + more + rest)[1..] == more + rest
  {
  }

  lemma DropFirstKeepsUntagged(text: string)
    requires Untagged(text) && text != [] && IsWhitespace(text[0])
    ensures Untagged(text[1..])
  {
    UntaggedText(text);
    var ws, rest := Read(text).visible, Read(text).ending.rest;
    hide Read, Untagged, Classify;
    if ws == [] {
      assert false;
    }
    FirstLexeme(ws);
    assert Lexeme(ws[0], false) && text[0] == ws[0][0];
    hide Joined, Lexemes;
    WithoutFirst(ws[0], Joined(ws[1..]), rest);
    UntaggedIs(ws[1..], rest);
  }

  function AllButLast(text: string): string
    requires text != []
  {
    text[..|text| - 1]
  }

  lemma WithoutLast(front: string, w: string)
    requires w != []
    ensures front + w != [] && AllButLast(front + w) == front + AllButLast(w)
  {
  }

  lemma UndecidedFront(rest: string)
    requires Undecided(rest, false)
    ensures rest != [] && (AllButLast(rest) == [] || Undecided(AllButLast(rest), false))
  {
    if |rest| > 1 {
      UndecidedShorter(rest, false);
    }
  }

  lemma DropLastOfRest(ws: seq<string>, rest: string)
    requires Lexemes(ws, false) && Undecided(rest, false)
    ensures Joined(ws) + rest != [] && Untagged(AllButLast(Joined(ws) + rest))
  {
    hide *;
    UndecidedFront(rest);
    WithoutLast(Joined(ws), rest);
    UntaggedIs(ws, AllButLast(rest));
  }

  lemma LexemeFront(w: string)
    requires Lexeme(w, false)
    ensures w != [] && (AllButLast(w) == [] || Undecided(AllButLast(w), false))
  {
  }

  lemma DropLastOfLexemes(front: seq<string>, last: string)
    requires Lexemes(front, false) && Lexeme(last, false)
    ensures Joined(front) + last != [] && Untagged(AllButLast(Joined(front) + last))
  {
    hide *;
    LexemeFront(last);
    WithoutLast(Joined(front), last);
    UntaggedIs(front, AllButLast(last));
  }

  lemma LastLexeme(ws: seq<string>)
    requires Lexemes(ws, false) && ws != []
    ensures Joined(ws) == Joined(ws[..|ws| - 1]) + ws[|ws| - 1]
    ensures Lexemes(ws[..|ws| - 1], false) && Lexeme(ws[|ws| - 1], false)
  {
    hide Lexeme;
  }

  lemma DropLastOfJoined(ws: seq<string>)
    requires Lexemes(ws, false) && Joined(ws) != []
    ensures Untagged(AllButLast(Joined(ws)))
  {
    assert ws != [];
    hide *;
    LastLexeme(ws);
    DropLastOfLexemes(ws[..|ws| - 1], ws[|ws| - 1]);
  }

  lemma DropLastKeepsUntagged(text: string)
    requires Untagged(text) && text != [] && IsWhitespace(text[|text| - 1])
    ensures Untagged(AllButLast(text))
  {
    hide *;
    UntaggedText(text);
    var ws, rest := Read(text).visible, Read(text).ending.rest;
    if rest != [] {
      DropLastOfRest(ws, rest);
    } else {
      NothingAdded(Joined(ws));
      DropLastOfJoined(ws);
    }
  }

  lemma {:induction false} TrimStartKeepsUntagged(text: string)
    requires Untagged(text)
    ensures Untagged(TrimStart(text))
    decreases |text|
  {
    if text != [] && IsWhitespace(text[0]) {
      DropFirstKeepsUntagged(text);
      TrimStartKeepsUntagged(text[1..]);
    }
  }

  lemma {:induction false} TrimEndKeepsUntagged(text: string)
    requires Untagged(text)
    ensures Untagged(TrimEnd(text))
    decreases |text|
  {
    if text != [] && IsWhitespace(text[|text| - 1]) {
      DropLastKeepsUntagged(text);
      TrimEndKeepsUntagged(text[..|text| - 1]);
    }
  }

  lemma {:induction false} TrimEndEnds(text: string)
    ensures TrimEnd(text) <= text
    ensures TrimEnd(text) != [] ==> !IsWhitespace(TrimEnd(text)[|TrimEnd(text)| - 1])
    decreases |text|
  {
    if text != [] && IsWhitespace(text[|text| - 1]) {
      TrimEndEnds(text[..|text| - 1]);
    }
  }

  lemma {:induction false} TrimStartStarts(text: string)
    ensures TrimStart(text) != [] ==> !IsWhitespace(TrimStart(text)[0])
    decreases |text|
  {
    if text != [] && IsWhitespace(text[0]) {
      TrimStartStarts(text[1..]);
    }
  }

  lemma TrimIsIdempotent(text: string)
    ensures Trim(Trim(text)) == Trim(text)
  {
    TrimStartStarts(text);
    TrimEndEnds(TrimStart(text));
  }

  /**
   Stripping is idempotent: neither removing blocks nor trimming can splice a new tag together.
   What is left holds no thinking tag.
   */
  lemma StripIsIdempotent(text: string)
    ensures StripThinkingTags(StripThinkingTags(text)) == StripThinkingTags(text)
    ensures Untagged(StripThinkingTags(text))
  {
    FilteredIsUntagged(text);
    TrimStartKeepsUntagged(Filtered(text));
    TrimEndKeepsUntagged(TrimStart(Filtered(text)));
    UntaggedPasses(StripThinkingTags(text));
    TrimIsIdempotent(Filtered(text));
  }
}

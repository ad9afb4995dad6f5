/** Recognition of thinking tags (src/thinking_filter.rs). */
module ThinkingTags {

  const THINKING_TAGS: seq<string> := ["think", "thinking", "thought", "reasoning", "reflection"]

  datatype TagMatch = Complete | Possible | No

  predicate IsAsciiWhitespace(c: char) {
    c == ' ' || c == '\t' || c == '\n' || c == '\r' || c == '\U{000C}'
  }

  function ToAsciiLowercase(c: char): char {
    if 'A' <= c <= 'Z' then ((c as int) + 32) as char else c
  }

  function LowerAll(s: string): (r: string)
    ensures |r| == |s|
  {
    if s == [] then [] else LowerAll(s[..|s| - 1]) + [ToAsciiLowercase(s[|s| - 1])]
  }

  /** Lower-cased, with ASCII whitespace dropped. */
  function Squeezed(s: string): string {
    if s == [] then []
    else
      var last := s[|s| - 1];
      Squeezed(s[..|s| - 1]) + (if IsAsciiWhitespace(last) then [] else [ToAsciiLowercase(last)])
  }

  /** The spelling a tag candidate is compared by: whitespace anywhere after the `<` does not count, nor does case. */
  function Canonical(buf: string): string {
    if buf == [] then []
    else if buf[0] != '<' then LowerAll(buf)
    else ['<'] + Squeezed(buf[1..])
  }

  function FullTag(tag: string, closing: bool): string {
    (if closing then "</" else "<") + tag + ">"
  }

  /** The loop over the tag table: the first tag that matches at all decides. */
  function ClassifyAmong(tags: seq<string>, lower: string, closing: bool): TagMatch {
    if tags == [] then No
    else
      var full := FullTag(tags[0], closing);
      if lower == full then Complete
      else if lower <= full then Possible
      else ClassifyAmong(tags[1..], lower, closing)
  }

  function Classify(buf: string, closing: bool): TagMatch {
    ClassifyAmong(THINKING_TAGS, Canonical(buf), closing)
  }

  // ----- laws

  /** No tag name holds the character that ends a tag. */
  predicate Plain(tags: seq<string>) {
    forall t :: t in tags ==> '>' !in t
  }

  /** The character that ends a tag occurs nowhere before its end. */
  lemma EndOnlyAtEnd(tag: string, closing: bool, i: nat)
    requires '>' !in tag && i < |FullTag(tag, closing)| - 1
    ensures FullTag(tag, closing)[i] != '>'
  {
    var k := if closing then 2 else 1;
    if i >= k {
      assert FullTag(tag, closing)[i] == tag[i - k];
    }
  }

  /** A whole tag is never a proper prefix of another, so it cannot be mistaken for an unfinished one. */
  lemma WholeTagIsNoPrefix(t: string, u: string, closing: bool)
    requires '>' !in u && FullTag(t, closing) <= FullTag(u, closing)
    ensures FullTag(t, closing) == FullTag(u, closing)
  {
    var ft, fu := FullTag(t, closing), FullTag(u, closing);
    forall i: nat | i < |fu| - 1 ensures fu[i] != '>' {
      EndOnlyAtEnd(u, closing, i);
    }
    assert ft[|ft| - 1] == '>' && ft[|ft| - 1] == fu[|ft| - 1];
  }

  /** The classification, declaratively: whole tag, proper beginning of a tag, or neither. */
  lemma {:induction false} ClassifyExact(tags: seq<string>, lower: string, closing: bool)
    requires Plain(tags)
    ensures ClassifyAmong(tags, lower, closing).Complete? <==> exists t :: t in tags && lower == FullTag(t, closing)
    ensures ClassifyAmong(tags, lower, closing).No? <==> forall t :: t in tags ==> !(lower <= FullTag(t, closing))
    decreases |tags|
  {
    if tags != [] {
      var rest := tags[1..];
      assert forall t :: t in tags <==> t == tags[0] || t in rest;
      ClassifyExact(rest, lower, closing);
      if lower != FullTag(tags[0], closing) && lower <= FullTag(tags[0], closing) {
        if exists t :: t in tags && lower == FullTag(t, closing) {
          var t :| t in tags && lower == FullTag(t, closing);
          WholeTagIsNoPrefix(t, tags[0], closing);
        }
      }
    }
  }

  /** The order of the tag table does not matter. */
  lemma ClassifyIgnoresTagOrder(x: seq<string>, y: seq<string>, lower: string, closing: bool)
    requires Plain(x) && forall t :: t in x <==> t in y
    ensures ClassifyAmong(x, lower, closing) == ClassifyAmong(y, lower, closing)
  {
    ClassifyExact(x, lower, closing);
    ClassifyExact(y, lower, closing);
  }

  lemma TagTableIsPlain()
    ensures Plain(THINKING_TAGS)
    ensures forall t :: t in THINKING_TAGS ==> |t| <= 10
  {
    var a, b, c, d, e := "think", "thinking", "thought", "reasoning", "reflection";
    assert THINKING_TAGS == [a, b, c, d, e];
    assert '>' !in a && '>' !in b && '>' !in c && '>' !in d && '>' !in e;
  }

  /** What is possible is the beginning of a tag, short of at least its last character. */
  lemma PossibleIsProperPrefix(buf: string, closing: bool)
    requires Classify(buf, closing).Possible?
    ensures exists t :: t in THINKING_TAGS && Canonical(buf) < FullTag(t, closing)
    ensures |Canonical(buf)| <= 12
  {
    TagTableIsPlain();
    ClassifyExact(THINKING_TAGS, Canonical(buf), closing);
    var t :| t in THINKING_TAGS && Canonical(buf) <= FullTag(t, closing);
    assert Canonical(buf) != FullTag(t, closing);
    assert Canonical(buf) < FullTag(t, closing);
  }

  // ----- what counts as a tag, letter by letter

  predicate IsTagName(t: string) {
    t == "think" || t == "thinking" || t == "thought" || t == "reasoning" || t == "reflection"
  }

  /** c stands for d: it is d itself, or the capital of the letter d. */
  predicate StandsFor(c: char, d: char) {
    if c in "ABCDEFGHIJKLMNOPQRSTUVWXYZ" then c as int + 32 == d as int else c == d
  }

  /** s spells t: in front of, between and behind letters that stand for those of t it has white space only. */
  predicate Spells(s: string, t: string) {
    if s == [] then t == []
    else if s[0] in " \t\n\r" || s[0] == '\U{000C}' then Spells(s[1..], t)
    else t != [] && StandsFor(s[0], t[0]) && Spells(s[1..], t[1..])
  }

  lemma CapitalsAreCapitals(c: char)
    ensures c in "ABCDEFGHIJKLMNOPQRSTUVWXYZ" <==> 'A' <= c <= 'Z'
  {
    var capitals := "ABCDEFGHIJKLMNOPQRSTUVWXYZ";
    assert forall k :: 0 <= k < 26 ==> capitals[k] as int == 'A' as int + k;
    if 'A' <= c <= 'Z' {
      assert capitals[c as int - 'A' as int] == c;
    }
  }

  lemma {:induction false} SqueezedFirst(s: string)
    requires s != []
    ensures Squeezed(s) == (if IsAsciiWhitespace(s[0]) then [] else [ToAsciiLowercase(s[0])]) + Squeezed(s[1..])
    decreases |s|
  {
    if |s| == 1 {
      assert s[..0] == [] && s[1..] == [];
    } else {
      SqueezedFirst(s[..|s| - 1]);
      assert s[..|s| - 1][1..] == s[1..][..|s[1..]| - 1];
    }
  }

  lemma {:induction false} SqueezedSpells(s: string, t: string)
    ensures Squeezed(s) == t <==> Spells(s, t)
    decreases |s|
  {
    if s != [] {
      SqueezedFirst(s);
      CapitalsAreCapitals(s[0]);
      SqueezedSpells(s[1..], t);
      if !IsAsciiWhitespace(s[0]) && t != [] {
        SqueezedSpells(s[1..], t[1..]);
        assert [t[0]] + t[1..] == t;
      }
    }
  }

  lemma CanonicalSpells(buf: string, t: string)
    requires buf != [] && buf[0] == '<'
    ensures Canonical(buf) == t <==> Spells(buf, t)
  {
    CapitalsAreCapitals('<');
    SqueezedSpells(buf[1..], if t == [] then t else t[1..]);
    if t != [] {
      assert [t[0]] + t[1..] == t;
    }
  }

  /** The text is a whole thinking tag, whatever its capitals and its white space. */
  ghost predicate WholeTag(buf: string, closing: bool) {
    exists t :: IsTagName(t) && Spells(buf, (if closing then "</" else "<") + t + ">")
  }

  /** s spells a beginning of t, or t itself. */
  ghost predicate SpellsBeginning(s: string, t: string) {
    exists k :: 0 <= k <= |t| && Spells(s, t[..k])
  }

  /** The text is the beginning of one: of its name at most, without the closing bracket. */
  ghost predicate TagBeginning(buf: string, closing: bool) {
    exists t :: IsTagName(t) && SpellsBeginning(buf, (if closing then "</" else "<") + t)
  }

  lemma NamesInTable(t: string)
    ensures IsTagName(t) <==> t in THINKING_TAGS
  {
    var a, b, c, d, e := "think", "thinking", "thought", "reasoning", "reflection";
    assert THINKING_TAGS == [a, b, c, d, e];
  }

  /** A text spells a beginning that ends before the closing bracket, or is no beginning of the tag. */
  lemma BeginningMeans(buf: string, t: string, closing: bool)
    requires buf != [] && buf[0] == '<'
    ensures SpellsBeginning(buf, (if closing then "</" else "<") + t)
            <==> Canonical(buf) <= FullTag(t, closing) && Canonical(buf) != FullTag(t, closing)
  {
    var lower, short := Canonical(buf), (if closing then "</" else "<") + t;
    assert FullTag(t, closing) == short + ['>'];
    hide Canonical, Spells;
    if k :| 0 <= k <= |short| && Spells(buf, short[..k]) {
      CanonicalSpells(buf, short[..k]);
    }
    if lower <= FullTag(t, closing) && lower != FullTag(t, closing) {
      assert short[..|lower|] == lower;
      CanonicalSpells(buf, short[..|lower|]);
    }
  }

  lemma CompleteMeans(buf: string, closing: bool)
    requires buf != [] && buf[0] == '<'
    ensures Classify(buf, closing).Complete? <==> WholeTag(buf, closing)
  {
    TagTableIsPlain();
    ClassifyExact(THINKING_TAGS, Canonical(buf), closing);
    hide ClassifyAmong, Canonical, Spells, IsTagName, THINKING_TAGS, Plain;
    if Classify(buf, closing).Complete? {
      var t :| t in THINKING_TAGS && Canonical(buf) == FullTag(t, closing);
      NamesInTable(t);
      CanonicalSpells(buf, FullTag(t, closing));
    }
    if WholeTag(buf, closing) {
      var t :| IsTagName(t) && Spells(buf, (if closing then "</" else "<") + t + ">");
      NamesInTable(t);
      CanonicalSpells(buf, FullTag(t, closing));
    }
  }

  lemma PossibleMeans(buf: string, closing: bool)
    requires buf != [] && buf[0] == '<'
    ensures Classify(buf, closing).Possible? <==> TagBeginning(buf, closing)
  {
    var lower := Canonical(buf);
    TagTableIsPlain();
    ClassifyExact(THINKING_TAGS, lower, closing);
    hide ClassifyAmong, Canonical, SpellsBeginning, IsTagName, THINKING_TAGS, FullTag;
    if Classify(buf, closing).Possible? {
      var t :| t in THINKING_TAGS && lower <= FullTag(t, closing);
      NamesInTable(t);
      BeginningMeans(buf, t, closing);
    }
    if TagBeginning(buf, closing) {
      var t :| IsTagName(t) && SpellsBeginning(buf, (if closing then "</" else "<") + t);
      NamesInTable(t);
      BeginningMeans(buf, t, closing);
      if Classify(buf, closing).Complete? {
        var u :| u in THINKING_TAGS && lower == FullTag(u, closing);
        WholeTagIsNoPrefix(u, t, closing);
      }
    }
  }

  /** What a candidate is taken for: a whole tag, a beginning of one, or neither. */
  lemma ClassifyMeans(buf: string, closing: bool)
    requires buf != [] && buf[0] == '<'
    ensures Classify(buf, closing) == if WholeTag(buf, closing) then Complete
                                      else if TagBeginning(buf, closing) then Possible
                                      else No
  {
    CompleteMeans(buf, closing);
    PossibleMeans(buf, closing);
  }

  // ----- the loops of the program

  method CanonicalizeTagCandidate(buf: string) returns (out: string)
    ensures out == Canonical(buf)
  {
    out := [];
    if buf == [] {
      return;
    }
    out := [ToAsciiLowercase(buf[0])];
    if buf[0] != '<' {
      out := LowerRest(buf);
      return;
    }
    out := SqueezeRest(buf[1..]);
  }

  lemma SqueezedStep(s: string, i: nat)
    requires i < |s|
    ensures Squeezed(s[..i + 1])
            == Squeezed(s[..i]) + (if IsAsciiWhitespace(s[i]) then [] else [ToAsciiLowercase(s[i])])
  {
    assert s[..i + 1][..i] == s[..i];
  }

  method SqueezeRest(rest: string) returns (out: string)
    ensures out == ['<'] + Squeezed(rest)
  {
    var i, text := SkipWhitespace(rest, 0, []);
    if i < |rest| && rest[i] == '/' {
      SqueezedStep(rest, i);
      text := text + ['/'];
      i, text := SkipWhitespace(rest, i + 1, text);
    }
    while i < |rest|
      invariant i <= |rest|
      invariant text == Squeezed(rest[..i])
    {
      SqueezedStep(rest, i);
      if !IsAsciiWhitespace(rest[i]) {
        text := text + [ToAsciiLowercase(rest[i])];
      }
      i := i + 1;
    }
    assert rest[..|rest|] == rest;
    out := ['<'] + text;
  }

  method LowerRest(buf: string) returns (out: string)
    requires buf != []
    ensures out == LowerAll(buf)
  {
    out := [ToAsciiLowercase(buf[0])];
    assert buf[..1][..0] == [];
    for i := 1 to |buf|
      invariant out == LowerAll(buf[..i])
    {
      assert buf[..i + 1][..i] == buf[..i];
      out := out + [ToAsciiLowercase(buf[i])];
    }
    assert buf[..|buf|] == buf;
  }

  /** Skips a run of whitespace, which leaves the canonical text as it is. */
  method SkipWhitespace(rest: string, from: nat, text: string) returns (i: nat, same: string)
    requires from <= |rest| && text == Squeezed(rest[..from])
    ensures from <= i <= |rest| && same == text && same == Squeezed(rest[..i])
  {
    i, same := from, text;
    while i < |rest| && IsAsciiWhitespace(rest[i])
      invariant from <= i <= |rest|
      invariant same == Squeezed(rest[..i])
    {
      SqueezedStep(rest, i);
      i := i + 1;
    }
  }

  method ClassifyCandidate(buf: string, closing: bool) returns (result: TagMatch)
    ensures result == Classify(buf, closing)
  {
    var lower := CanonicalizeTagCandidate(buf);
    for i := 0 to |THINKING_TAGS|
      invariant Classify(buf, closing) == ClassifyAmong(THINKING_TAGS[i..], lower, closing)
    {
      var full := FullTag(THINKING_TAGS[i], closing);
      assert THINKING_TAGS[i..][1..] == THINKING_TAGS[i + 1..];
      if lower == full {
        return Complete;
      }
      if lower <= full {
        return Possible;
      }
    }
    result := No;
  }
}

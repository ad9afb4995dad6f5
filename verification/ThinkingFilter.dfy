/** The streaming filter that splits assistant text into visible text and hidden thoughts (src/thinking_filter.rs). */
module ThinkingFilter {
  import opened Wrappers
  import opened ThinkingTags

  datatype FilterState = FilterState(inside: bool, pending: string, thought: Option<string>, completed: Option<string>)

  const INITIAL: FilterState := FilterState(false, [], None, None)

  datatype Progress = Progress(state: FilterState, out: string)

  function ConsumeOutside(s: FilterState, c: char): Progress {
    if s.pending == [] then
      if c == '<' then Progress(s.(pending := [c]), []) else Progress(s, [c])
    else
      var candidate := s.pending + [c];
      match Classify(candidate, false)
      case Complete => Progress(FilterState(true, [], Some([]), s.completed), [])
      case Possible => Progress(s.(pending := candidate), [])
      case No => Progress(s.(pending := []), candidate)
  }

  function ConsumeInside(s: FilterState, c: char): FilterState {
    if s.pending == [] then
      if c == '<' then s.(pending := [c])
      else if s.thought.Some? then s.(thought := Some(s.thought.value + [c]))
      else s
    else
      var candidate := s.pending + [c];
      match Classify(candidate, true)
      case Complete => FilterState(false, [], None, s.thought)
      case Possible => s.(pending := candidate)
      case No =>
        s.(pending := [], thought := Some(if s.thought.Some? then s.thought.value + candidate else candidate))
  }

  function Consume(s: FilterState, c: char): Progress {
    if s.inside then Progress(ConsumeInside(s, c), []) else ConsumeOutside(s, c)
  }

  /** Feeding a text: the state it leaves and the visible text it yields. */
  function Fed(s: FilterState, text: string): Progress {
    if text == [] then Progress(s, [])
    else
      var before := Fed(s, text[..|text| - 1]);
      var step := Consume(before.state, text[|text| - 1]);
      Progress(step.state, before.out + step.out)
  }

  function FlushOutput(s: FilterState): string {
    if s.inside then [] else s.pending
  }

  /** char::is_whitespace, the Unicode White_Space property. */
  predicate IsWhitespace(c: char) {
    || '\t' <= c <= '\r'
    || c == ' ' || c == '\U{0085}' || c == '\U{00A0}' || c == '\U{1680}'
    || '\U{2000}' <= c <= '\U{200A}'
    || c == '\U{2028}' || c == '\U{2029}' || c == '\U{202F}' || c == '\U{205F}' || c == '\U{3000}'
  }

  function TrimStart(s: string): string {
    if s != [] && IsWhitespace(s[0]) then TrimStart(s[1..]) else s
  }

  function TrimEnd(s: string): string {
    if s != [] && IsWhitespace(s[|s| - 1]) then TrimEnd(s[..|s| - 1]) else s
  }

  function Trim(s: string): string {
    TrimEnd(TrimStart(s))
  }

  /** Feed and flush of a whole text by a new filter. */
  function Filtered(text: string): string {
    Fed(INITIAL, text).out + FlushOutput(Fed(INITIAL, text).state)
  }

  function StripThinkingTags(text: string): string {
    Trim(Filtered(text))
  }

  // ----- the program

  class ThinkingTagStreamFilter {
    var inside: bool
    var pending: string
    var thoughtBuffer: Option<string>
    var completedThought: Option<string>

    ghost function State(): FilterState
      reads this
    {
      FilterState(inside, pending, thoughtBuffer, completedThought)
    }

    /** A thought is being collected exactly while inside a tag. */
    ghost predicate Valid()
      reads this
    {
      thoughtBuffer.Some? <==> inside
    }

    constructor ()
      ensures State() == INITIAL && Valid()
    {
      inside, pending, thoughtBuffer, completedThought := false, [], None, None;
    }

    method Feed(delta: string) returns (out: string)
      requires Valid()
      modifies this
      ensures Valid()
      ensures Progress(State(), out) == Fed(old(State()), delta)
    {
      out := [];
      assert delta[..0] == [];
      for i := 0 to |delta|
        invariant Valid()
        invariant Progress(State(), out) == Fed(old(State()), delta[..i])
      {
        assert delta[..i + 1][..i] == delta[..i];
        if inside {
          ConsumeInsideChar(delta[i]);
        } else {
          var visible := ConsumeOutsideChar(delta[i]);
          out := out + visible;
        }
      }
      assert delta[..|delta|] == delta;
    }

    method ConsumeOutsideChar(c: char) returns (out: string)
      requires Valid() && !inside
      modifies this
      ensures Valid()
      ensures Progress(State(), out) == ConsumeOutside(old(State()), c)
    {
      out := [];
      if pending == [] {
        if c == '<' {
          pending := pending + [c];
        } else {
          out := [c];
        }
        return;
      }
      pending := pending + [c];
      var found := ClassifyCandidate(pending, false);
      match found {
        case Complete =>
          inside := true;
          pending := [];
          thoughtBuffer := Some([]);
        case Possible =>
        case No =>
          out := pending;
          pending := [];
      }
    }

    method ConsumeInsideChar(c: char)
      requires inside
      modifies this
      ensures old(Valid()) ==> Valid()
      ensures State() == ConsumeInside(old(State()), c)
    {
      if pending == [] {
        if c == '<' {
          pending := pending + [c];
        } else if thoughtBuffer.Some? {
          thoughtBuffer := Some(thoughtBuffer.value + [c]);
        }
        return;
      }
      pending := pending + [c];
      var found := ClassifyCandidate(pending, true);
      match found {
        case Complete =>
          inside := false;
          completedThought := thoughtBuffer;
          thoughtBuffer := None;
          pending := [];
        case Possible =>
        case No =>
          if thoughtBuffer.Some? {
            thoughtBuffer := Some(thoughtBuffer.value + pending);
          } else {
            thoughtBuffer := Some(pending);
          }
          pending := [];
      }
    }

    /** The end of the stream: a pending prefix outside a tag was text after all; an unclosed tag is dropped. */
    method Flush() returns (out: string)
      requires Valid()
      modifies this
      ensures out == FlushOutput(old(State()))
      ensures State() == INITIAL && Valid()
    {
      if inside {
        thoughtBuffer := None;
        out := [];
      } else {
        out := pending;
        pending := [];
      }
      pending := [];
      inside := false;
      completedThought := None;
    }

    method Reset()
      modifies this
      ensures State() == INITIAL && Valid()
    {
      pending := [];
      inside := false;
      thoughtBuffer := None;
      completedThought := None;
    }

    method TakeCompletedThought() returns (thought: Option<string>)
      requires Valid()
      modifies this`completedThought
      ensures thought == old(completedThought) && completedThought == None && Valid()
    {
      thought := completedThought;
      completedThought := None;
    }
  }

  method Strip(text: string) returns (result: string)
    ensures result == StripThinkingTags(text)
  {
    var filter := new ThinkingTagStreamFilter();
    result := filter.Feed(text);
    var rest := filter.Flush();
    result := Trim(result + rest);
  }
}

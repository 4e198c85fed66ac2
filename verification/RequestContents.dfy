/** Where everything in an Anthropic request goes, block by block (openai_compat.py). */
module RequestContents {
  import opened Wrappers
  import opened OpenAiResponse
  import opened OpenAiRequest

  /** The positions that satisfy p, in order. */
  function Positions<T(!new)>(s: seq<T>, p: T -> bool): (r: seq<nat>)
    ensures forall k :: 0 <= k < |r| ==> r[k] < |s| && p(s[r[k]])
    ensures forall j, k :: 0 <= j < k < |r| ==> r[j] < r[k]
  {
    if s == [] then []
    else
      var n := |s| - 1;
      if p(s[n]) then Positions(s[..n], p) + [n] else Positions(s[..n], p)
  }

  lemma {:induction false} NoneLeftOut<T(!new)>(s: seq<T>, p: T -> bool, i: nat)
    requires i < |s| && p(s[i])
    ensures i in Positions(s, p)
  {
    if i < |s| - 1 {
      NoneLeftOut(s[..|s| - 1], p, i);
    }
  }

  lemma PositionsNext<T(!new)>(s: seq<T>, p: T -> bool)
    requires s != []
    ensures Positions(s, p) == Positions(s[..|s| - 1], p) + if p(s[|s| - 1]) then [|s| - 1] else []
  {
  }

  // ----- texts joined

  lemma {:induction false} JoinAppends(a: seq<string>, x: string, sep: string)
    ensures Join([], sep) == ""
    ensures Join(a + [x], sep) == if a == [] then x else Join(a, sep) + sep + x
  {
    assert (a + [x])[..|a|] == a;
  }

  predicate IsText(n: Nested) {
    n.NestedText?
  }

  lemma {:induction false} NestedTextsAt(items: seq<Nested>)
    ensures |NestedTexts(items)| == |Positions(items, IsText)|
    ensures forall k :: 0 <= k < |NestedTexts(items)| ==>
              NestedTexts(items)[k] == items[Positions(items, IsText)[k]].text.GetOr("")
  {
    if items != [] {
      NestedTextsAt(items[..|items| - 1]);
    }
  }

  /** A tool result's text: the string itself, the text blocks of a list one to a line, anything else as JSON. */
  ghost predicate ReadsAs<J(!new)>(codec: Codec<J>, c: ResultContent<J>, text: string) {
    match c
    case ResultString(s) => text == s
    case ResultOther(value) => text == codec.dumps(value)
    case ResultList(items) =>
      var at := Positions(items, IsText);
      text == Join(seq(|at|, k requires 0 <= k < |at| => items[at[k]].text.GetOr("")), "\n")
  }

  lemma ResultReads<J(!new)>(codec: Codec<J>, c: ResultContent<J>)
    ensures ReadsAs(codec, c, ResultText(codec, c))
  {
    if c.ResultList? {
      NestedTextsAt(c.items);
      var at := Positions(c.items, IsText);
      assert NestedTexts(c.items) == seq(|at|, k requires 0 <= k < |at| => c.items[at[k]].text.GetOr(""));
    }
  }

  // ----- blocks

  predicate Shown<J>(b: InBlock<J>) {
    b.InText? || b.InImage? || b.InDocument?
  }

  predicate IsResult<J>(b: InBlock<J>) {
    b.InToolResult?
  }

  predicate IsUse<J>(b: InBlock<J>) {
    b.InToolUse?
  }

  /** A text keeps its text, an image its type and data, and a document is marked. */
  ghost predicate ShownAs<J>(b: InBlock<J>, part: OutPart) {
    && (b.InText? ==> part == OutText(b.text.GetOr("")))
    && (b.InImage? ==> part == OutImage("data:" + b.mediaType.GetOr("image/png") + ";base64," + b.data.GetOr("")))
    && (b.InDocument? ==> part == OutText(DOCUMENT_MARKER))
  }

  ghost predicate AnsweredAs<J(!new)>(codec: Codec<J>, b: InBlock<J>, m: OutMessage) {
    b.InToolResult? && m.ToolMessage? && m.toolCallId == b.toolUseId.GetOr("") && ReadsAs(codec, b.content, m.text)
  }

  ghost predicate CalledAs<J(!new)>(codec: Codec<J>, b: InBlock<J>, call: ToolCall) {
    && b.InToolUse?
    && call == ToolCall(Some(b.id.GetOr("")), Some(b.name.GetOr("")), Some(codec.dumps(b.input.GetOr(codec.empty))))
  }

  /** The blocks to show become the parts, one for one and in order. */
  ghost predicate ShowsAll<J(!new)>(bs: seq<InBlock<J>>, parts: seq<OutPart>) {
    var at := Positions(bs, Shown);
    |parts| == |at| && forall k :: 0 <= k < |at| ==> ShownAs(bs[at[k]], parts[k])
  }

  /** The tool results become the tool messages, one for one and in order. */
  ghost predicate AnswersAll<J(!new)>(codec: Codec<J>, bs: seq<InBlock<J>>, ms: seq<OutMessage>) {
    var at := Positions(bs, IsResult);
    |ms| == |at| && forall k :: 0 <= k < |at| ==> AnsweredAs(codec, bs[at[k]], ms[k])
  }

  /** The tool uses become the calls, one for one and in order. */
  ghost predicate CallsAll<J(!new)>(codec: Codec<J>, bs: seq<InBlock<J>>, calls: seq<ToolCall>) {
    var at := Positions(bs, IsUse);
    |calls| == |at| && forall k :: 0 <= k < |at| ==> CalledAs(codec, bs[at[k]], calls[k])
  }

  lemma {:induction false} PartsShow<J(!new)>(bs: seq<InBlock<J>>)
    ensures ShowsAll(bs, PartsOf(bs))
  {
    if bs != [] {
      PartsShow(bs[..|bs| - 1]);
    }
  }

  lemma {:induction false} ToolMessagesAnswer<J(!new)>(codec: Codec<J>, bs: seq<InBlock<J>>)
    ensures AnswersAll(codec, bs, ToolMessagesOf(codec, bs))
  {
    if bs != [] {
      var n := |bs| - 1;
      ToolMessagesAnswer(codec, bs[..n]);
      PositionsNext(bs, IsResult);
      hide Positions, ReadsAs, ResultText;
      if bs[n].InToolResult? {
        ResultReads(codec, bs[n].content);
        assert AnsweredAs(codec, bs[n], ToolMessageOf(codec, bs[n])[0]);
      }
      hide AnsweredAs;
    }
  }

  lemma {:induction false} CallsCall<J(!new)>(codec: Codec<J>, bs: seq<InBlock<J>>)
    ensures CallsAll(codec, bs, CallsOf(codec, bs))
  {
    if bs != [] {
      CallsCall(codec, bs[..|bs| - 1]);
    }
  }

  lemma EveryBlockGoesSomewhere<J(!new)>(codec: Codec<J>, bs: seq<InBlock<J>>)
    ensures ShowsAll(bs, PartsOf(bs))
    ensures AnswersAll(codec, bs, ToolMessagesOf(codec, bs))
    ensures CallsAll(codec, bs, CallsOf(codec, bs))
  {
    hide *;
    PartsShow(bs);
    ToolMessagesAnswer(codec, bs);
    CallsCall(codec, bs);
  }

  // ----- turns and conversations

  /** The texts among the parts, run together. */
  ghost predicate RunTogether(parts: seq<OutPart>, text: string) {
    if parts == [] then text == ""
    else
      var n := |parts| - 1;
      exists front :: RunTogether(parts[..n], front) && text == front + if parts[n].OutText? then parts[n].text else ""
  }

  lemma {:induction false} TextRunsTogether(parts: seq<OutPart>)
    ensures RunTogether(parts, TextOfParts(parts))
  {
    if parts != [] {
      TextRunsTogether(parts[..|parts| - 1]);
    }
  }

  /** A turn's messages, said of the turn. An assistant turn is one message with its text, null if there is none, and
      its calls. Any other turn is its tool results, then one user message with everything there is to show, if
      anything. */
  ghost predicate SaysTurn<J(!new)>(codec: Codec<J>, t: Turn<J>, ms: seq<OutMessage>) {
    if t.role == "assistant" then
      && |ms| == 1 && ms[0].AssistantMessage?
      && ms[0].message.content != Some("")
      && (t.content.Str? ==> ms[0].message.content.GetOr("") == t.content.s && ms[0].message.toolCalls == [])
      && (t.content.Blocks? ==>
            && CallsAll(codec, t.content.blocks, ms[0].message.toolCalls)
            && exists parts :: ShowsAll(t.content.blocks, parts) && RunTogether(parts, ms[0].message.content.GetOr("")))
    else if t.content.Str? then
      ms == if t.content.s == "" then [] else [UserMessage(UserString(t.content.s))]
    else
      var results, shown := |Positions(t.content.blocks, IsResult)|, Positions(t.content.blocks, Shown);
      && |ms| == results + (if shown == [] then 0 else 1)
      && AnswersAll(codec, t.content.blocks, ms[..results])
      && (shown != [] ==> ms[results].UserMessage? && ms[results].content.UserParts?
                          && ShowsAll(t.content.blocks, ms[results].content.parts))
  }

  lemma AssistantIsSaid<J(!new)>(codec: Codec<J>, t: Turn<J>)
    requires t.role == "assistant"
    ensures SaysTurn(codec, t, MessagesOf(codec, t))
  {
    if t.content.Blocks? {
      EveryBlockGoesSomewhere(codec, t.content.blocks);
      TextRunsTogether(PartsOf(t.content.blocks));
      hide ShowsAll, CallsAll, PartsOf, CallsOf, RunTogether, Positions, TextOfParts, ToolMessagesOf;
      assert TextOf(t.content) == TextOfParts(PartsOf(t.content.blocks));
    } else {
      assert CallsOf(codec, []) == [];
    }
  }

  lemma TurnIsSaid<J(!new)>(codec: Codec<J>, t: Turn<J>)
    ensures SaysTurn(codec, t, MessagesOf(codec, t))
  {
    if t.role == "assistant" {
      AssistantIsSaid(codec, t);
    } else if t.content.Blocks? {
      var bs := t.content.blocks;
      EveryBlockGoesSomewhere(codec, bs);
      hide PartsOf, ToolMessagesOf, ShownAs, AnsweredAs;
      var ms, tools := MessagesOf(codec, t), ToolMessagesOf(codec, bs);
      assert ms[..|tools|] == tools;
    } else {
      assert ToolMessagesOf(codec, BlocksOf(t.content)) == [];
    }
  }

  /** The messages are cut into one stretch a turn, in order. */
  ghost predicate SaysAll<J(!new)>(codec: Codec<J>, turns: seq<Turn<J>>, ms: seq<OutMessage>)
    decreases |turns|
  {
    if turns == [] then ms == []
    else exists n: nat :: n <= |ms| && SaysTurn(codec, turns[0], ms[..n]) && SaysAll(codec, turns[1..], ms[n..])
  }

  /** Nothing a user or an assistant says is lost, invented or moved: turn by turn, the messages say what the turns say,
      block by block. */
  lemma {:induction false} EverythingIsSaid<J(!new)>(codec: Codec<J>, turns: seq<Turn<J>>)
    ensures SaysAll(codec, turns, Translated(codec, turns))
  {
    if turns != [] {
      EverythingIsSaid(codec, turns[1..]);
      TurnIsSaid(codec, turns[0]);
      hide SaysTurn, MessagesOf;
      var ms, first := Translated(codec, turns), MessagesOf(codec, turns[0]);
      assert ms[..|first|] == first && ms[|first|..] == Translated(codec, turns[1..]);
    }
  }

  // ----- the system prompt

  predicate IsObject(e: SystemEntry) {
    e.SystemObject?
  }

  lemma {:induction false} SystemTextsAt(entries: seq<SystemEntry>)
    ensures |SystemTexts(entries)| == |Positions(entries, IsObject)|
    ensures forall k :: 0 <= k < |SystemTexts(entries)| ==>
              SystemTexts(entries)[k] == entries[Positions(entries, IsObject)[k]].text.GetOr("")
  {
    if entries != [] {
      SystemTextsAt(entries[..|entries| - 1]);
    }
  }

  function TextAt(entries: seq<SystemEntry>, at: seq<nat>): seq<string>
    requires forall k :: 0 <= k < |at| ==> at[k] < |entries| && entries[at[k]].SystemObject?
  {
    seq(|at|, k requires 0 <= k < |at| => entries[at[k]].text.GetOr(""))
  }

  function OneSystemMessage(text: string): seq<OutMessage> {
    if text == "" then [] else [SystemMessage(text)]
  }

  /** The system prompt is one message, or none if it comes to no text; the entries of a list stand one to a line. */
  lemma SystemIsSaid(system: System)
    ensures system == NoSystem ==> SystemMessages(system) == []
    ensures forall s :: system == SystemString(s) ==> SystemMessages(system) == OneSystemMessage(s)
    ensures system.SystemList? ==>
              var entries := system.entries;
              SystemMessages(system) == OneSystemMessage(Join(TextAt(entries, Positions(entries, IsObject)), "\n"))
  {
    if system.SystemList? {
      SystemTextsAt(system.entries);
      assert SystemTexts(system.entries) == TextAt(system.entries, Positions(system.entries, IsObject));
    }
  }
}

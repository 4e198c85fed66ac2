/** The request half of openai_compat.py: Anthropic turns become OpenAI messages. */
module OpenAiRequest {
  import opened Wrappers
  import opened OpenAiResponse

  // Anthropic side. None is a missing key.
  datatype Nested = NestedText(text: Option<string>) | NestedOther
  datatype ResultContent<J> = ResultString(s: string) | ResultList(items: seq<Nested>) | ResultOther(value: J)
  datatype InBlock<J> =
    | InText(text: Option<string>)
    | InImage(mediaType: Option<string>, data: Option<string>)
    | InToolUse(id: Option<string>, name: Option<string>, input: Option<J>)
    | InToolResult(toolUseId: Option<string>, content: ResultContent<J>)
    | InDocument
    | InOther
  datatype Content<J> = Str(s: string) | Blocks(blocks: seq<InBlock<J>>)
  datatype Turn<J> = Turn(role: string, content: Content<J>)
  // A system prompt: a string, or a list whose entries are objects (with or without a text) or not.
  datatype SystemEntry = SystemObject(text: Option<string>) | SystemOther
  datatype System = NoSystem | SystemString(s: string) | SystemList(entries: seq<SystemEntry>)

  // OpenAI side. An assistant message is the same object that a response carries.
  datatype OutPart = OutText(text: string) | OutImage(url: string)
  datatype UserContent = UserString(s: string) | UserParts(parts: seq<OutPart>)
  datatype OutMessage =
    | SystemMessage(text: string)
    | UserMessage(content: UserContent)
    | AssistantMessage(message: OMessage)
    | ToolMessage(toolCallId: string, text: string)

  const DOCUMENT_MARKER := "[byoai-runtime: document block present but not translatable to OpenAI format]"

  function Join(parts: seq<string>, sep: string): string {
    if |parts| == 0 then ""
    else if |parts| == 1 then parts[0]
    else Join(parts[..|parts| - 1], sep) + sep + parts[|parts| - 1]
  }

  // ----- what one list of blocks contributes: three independent selections

  function NestedTexts(items: seq<Nested>): seq<string> {
    if items == [] then []
    else
      var n := |items| - 1;
      NestedTexts(items[..n]) + (if items[n].NestedText? then [items[n].text.GetOr("")] else [])
  }

  function ResultText<J(!new)>(codec: Codec<J>, c: ResultContent<J>): string {
    match c
    case ResultString(s) => s
    case ResultList(items) => Join(NestedTexts(items), "\n")
    case ResultOther(value) => codec.dumps(value)
  }

  function PartOf<J>(b: InBlock<J>): seq<OutPart> {
    match b
    case InText(t) => [OutText(t.GetOr(""))]
    case InImage(m, d) => [OutImage("data:" + m.GetOr("image/png") + ";base64," + d.GetOr(""))]
    case InDocument => [OutText(DOCUMENT_MARKER)]
    case _ => []
  }

  function CallOf<J(!new)>(codec: Codec<J>, b: InBlock<J>): seq<ToolCall> {
    if b.InToolUse? then [ToolCall(Some(b.id.GetOr("")), Some(b.name.GetOr("")),
                                   Some(codec.dumps(b.input.GetOr(codec.empty))))]
    else []
  }

  function ToolMessageOf<J(!new)>(codec: Codec<J>, b: InBlock<J>): seq<OutMessage> {
    if b.InToolResult? then [ToolMessage(b.toolUseId.GetOr(""), ResultText(codec, b.content))] else []
  }

  function PartsOf<J>(bs: seq<InBlock<J>>): seq<OutPart> {
    if bs == [] then [] else PartsOf(bs[..|bs| - 1]) + PartOf(bs[|bs| - 1])
  }

  function CallsOf<J(!new)>(codec: Codec<J>, bs: seq<InBlock<J>>): seq<ToolCall> {
    if bs == [] then [] else CallsOf(codec, bs[..|bs| - 1]) + CallOf(codec, bs[|bs| - 1])
  }

  function ToolMessagesOf<J(!new)>(codec: Codec<J>, bs: seq<InBlock<J>>): seq<OutMessage> {
    if bs == [] then [] else ToolMessagesOf(codec, bs[..|bs| - 1]) + ToolMessageOf(codec, bs[|bs| - 1])
  }

  function TextOfParts(parts: seq<OutPart>): string {
    if parts == [] then ""
    else
      var n := |parts| - 1;
      TextOfParts(parts[..n]) + (if parts[n].OutText? then parts[n].text else "")
  }

  method FlattenResult<J(!new)>(codec: Codec<J>, c: ResultContent<J>) returns (text: string)
    ensures text == ResultText(codec, c)
  {
    match c
    case ResultString(s) => text := s;
    case ResultOther(value) => text := codec.dumps(value);
    case ResultList(items) =>
      var texts: seq<string> := [];
      for k := 0 to |items|
        invariant texts == NestedTexts(items[..k])
      {
        Prefixes(items, k);
        if items[k].NestedText? {
          texts := texts + [items[k].text.GetOr("")];
        }
      }
      assert items[..|items|] == items;
      text := Join(texts, "\n");
  }

  method ContentToParts<J(!new)>(codec: Codec<J>, bs: seq<InBlock<J>>)
      returns (parts: seq<OutPart>, extra: seq<OutMessage>, calls: seq<ToolCall>)
    ensures parts == PartsOf(bs)
    ensures extra == ToolMessagesOf(codec, bs)
    ensures calls == CallsOf(codec, bs)
  {
    parts, extra, calls := [], [], [];
    for k := 0 to |bs|
      invariant parts == PartsOf(bs[..k])
      invariant extra == ToolMessagesOf(codec, bs[..k])
      invariant calls == CallsOf(codec, bs[..k])
    {
      Prefixes(bs, k);
      match bs[k] {
        case InText(t) => parts := parts + [OutText(t.GetOr(""))];
        case InImage(m, d) =>
          parts := parts + [OutImage("data:" + m.GetOr("image/png") + ";base64," + d.GetOr(""))];
        case InToolUse(id, name, input) =>
          var arguments := codec.dumps(input.GetOr(codec.empty));
          calls := calls + [ToolCall(Some(id.GetOr("")), Some(name.GetOr("")), Some(arguments))];
        case InToolResult(id, content) =>
          var text := FlattenResult(codec, content);
          extra := extra + [ToolMessage(id.GetOr(""), text)];
        case InDocument => parts := parts + [OutText(DOCUMENT_MARKER)];
        case InOther =>
      }
    }
    assert bs[..|bs|] == bs;
  }

  method TextOnly(parts: seq<OutPart>) returns (text: string)
    ensures text == TextOfParts(parts)
  {
    text := "";
    for k := 0 to |parts|
      invariant text == TextOfParts(parts[..k])
    {
      Prefixes(parts, k);
      if parts[k].OutText? {
        text := text + parts[k].text;
      }
    }
    assert parts[..|parts|] == parts;
  }

  // ----- turns and messages

  function BlocksOf<J>(c: Content<J>): seq<InBlock<J>> {
    if c.Blocks? then c.blocks else []
  }

  function TextOf<J>(c: Content<J>): string {
    if c.Str? then c.s else TextOfParts(PartsOf(c.blocks))
  }

  function NonEmpty(text: string): Option<string> {
    if text == "" then None else Some(text)
  }

  function AssistantOf<J(!new)>(codec: Codec<J>, c: Content<J>): OMessage {
    OMessage(NonEmpty(TextOf(c)), CallsOf(codec, BlocksOf(c)))
  }

  function UserOf<J>(c: Content<J>): seq<OutMessage> {
    match c
    case Str(s) => if s == "" then [] else [UserMessage(UserString(s))]
    case Blocks(bs) => if PartsOf(bs) == [] then [] else [UserMessage(UserParts(PartsOf(bs)))]
  }

  /** One turn's messages: a user turn's tool results come before the rest of its content. */
  function MessagesOf<J(!new)>(codec: Codec<J>, t: Turn<J>): seq<OutMessage> {
    if t.role == "assistant" then [AssistantMessage(AssistantOf(codec, t.content))]
    else ToolMessagesOf(codec, BlocksOf(t.content)) + UserOf(t.content)
  }

  function Translated<J(!new)>(codec: Codec<J>, turns: seq<Turn<J>>): seq<OutMessage> {
    if turns == [] then [] else MessagesOf(codec, turns[0]) + Translated(codec, turns[1..])
  }

  function SystemTexts(entries: seq<SystemEntry>): seq<string> {
    if entries == [] then []
    else
      var n := |entries| - 1;
      SystemTexts(entries[..n]) + (if entries[n].SystemObject? then [entries[n].text.GetOr("")] else [])
  }

  function SystemMessages(system: System): seq<OutMessage> {
    var text := match system
      case NoSystem => ""
      case SystemString(s) => s
      case SystemList(entries) => Join(SystemTexts(entries), "\n");
    if text == "" then [] else [SystemMessage(text)]
  }

  method TranslateTurn<J(!new)>(codec: Codec<J>, turn: Turn<J>) returns (added: seq<OutMessage>)
    ensures added == MessagesOf(codec, turn)
  {
    var parts: seq<OutPart>, extra: seq<OutMessage>, calls: seq<ToolCall> := [], [], [];
    if turn.content.Blocks? {
      parts, extra, calls := ContentToParts(codec, turn.content.blocks);
    }
    if turn.role == "assistant" {
      var text := if turn.content.Str? then turn.content.s else "";
      if turn.content.Blocks? {
        text := TextOnly(parts);
      }
      added := [AssistantMessage(OMessage(if text == "" then None else Some(text), calls))];
    } else {
      added := extra;
      if turn.content.Str? {
        if turn.content.s != "" {
          added := added + [UserMessage(UserString(turn.content.s))];
        }
      } else if parts != [] {
        added := added + [UserMessage(UserParts(parts))];
      }
    }
  }

  method TranslateRequest<J(!new)>(codec: Codec<J>, system: System, turns: seq<Turn<J>>) returns (out: seq<OutMessage>)
    ensures out == SystemMessages(system) + Translated(codec, turns)
  {
    out := SystemMessages(system);
    for i := 0 to |turns|
      invariant out + Translated(codec, turns[i..]) == SystemMessages(system) + Translated(codec, turns)
    {
      var added := TranslateTurn(codec, turns[i]);
      assert turns[i..][1..] == turns[i + 1..];
      Assoc(out, added, Translated(codec, turns[i + 1..]));
      out := out + added;
    }
  }

  // ----- the rest of the body

  datatype InTool<J> = InTool(name: Option<string>, description: Option<string>, schema: Option<J>)
  datatype OutTool<J> = OutTool(name: Option<string>, description: string, parameters: J)
  datatype InChoice = Unset | Auto | AnyTool | OneTool(name: Option<string>) | UnknownChoice
  datatype OutChoice = ChooseAuto | Required | Function(name: string)

  // Settings that are copied if they are there. JSON's false and the schema of no parameters are the defaults.
  datatype Settings<J> = Settings(maxTokens: Option<J>, temperature: Option<J>, topP: Option<J>, stop: Option<J>)
  datatype Defaults<J> = Defaults(no: J, noParameters: J)
  datatype InBody<J> = InBody(model: Option<J>, stream: Option<J>, settings: Settings<J>, system: System,
                              turns: seq<Turn<J>>, tools: seq<InTool<J>>, choice: InChoice)
  datatype OutBody<J> = OutBody(model: Option<J>, stream: J, settings: Settings<J>, messages: seq<OutMessage>,
                                tools: Option<seq<OutTool<J>>>, choice: Option<OutChoice>)

  /** Each tool keeps its name, and what it lacks is filled in. */
  ghost predicate ToolsMatch<J>(d: Defaults<J>, tools: seq<InTool<J>>, out: seq<OutTool<J>>) {
    && |out| == |tools|
    && forall k :: 0 <= k < |tools| ==>
         out[k] == OutTool(tools[k].name, tools[k].description.GetOr(""), tools[k].schema.GetOr(d.noParameters))
  }

  /** A forced tool stays the same tool; a kind nobody knows is left out. */
  ghost predicate ChoiceMatches(choice: InChoice, out: Option<OutChoice>) {
    match choice
    case Auto => out == Some(ChooseAuto)
    case AnyTool => out == Some(Required)
    case OneTool(name) => out == Some(Function(name.GetOr("")))
    case _ => out == None
  }

  method TranslateTools<J>(d: Defaults<J>, tools: seq<InTool<J>>) returns (out: seq<OutTool<J>>)
    ensures ToolsMatch(d, tools, out)
  {
    out := [];
    for k := 0 to |tools|
      invariant |out| == k
      invariant forall j :: 0 <= j < k ==>
                  var t := tools[j];
                  out[j] == OutTool(t.name, t.description.GetOr(""), t.schema.GetOr(d.noParameters))
    {
      var t := tools[k];
      out := out + [OutTool(t.name, t.description.GetOr(""), t.schema.GetOr(d.noParameters))];
    }
  }

  method TranslateBody<J(!new)>(codec: Codec<J>, d: Defaults<J>, body: InBody<J>) returns (out: OutBody<J>)
    ensures out.messages == SystemMessages(body.system) + Translated(codec, body.turns)
    ensures out.model == body.model && out.settings == body.settings && out.stream == body.stream.GetOr(d.no)
    ensures if body.tools == [] then out.tools == None
            else out.tools.Some? && ToolsMatch(d, body.tools, out.tools.value)
    ensures ChoiceMatches(body.choice, out.choice)
  {
    var messages := TranslateRequest(codec, body.system, body.turns);
    var tools := TranslateTools(d, body.tools);
    hide Translated, SystemMessages, ToolsMatch;
    var choice := match body.choice
      case Auto => Some(ChooseAuto)
      case AnyTool => Some(Required)
      case OneTool(name) => Some(Function(name.GetOr("")))
      case _ => None;
    out := OutBody(body.model, body.stream.GetOr(d.no), body.settings, messages,
                   if body.tools == [] then None else Some(tools), choice);
  }

  // ----- tool ids are conserved

  function UseIds<J>(t: Turn<J>): seq<string> {
    if t.role == "assistant" then BlockUseIds(BlocksOf(t.content)) else []
  }

  function ResultIds<J>(t: Turn<J>): seq<string> {
    if t.role == "assistant" then [] else BlockResultIds(BlocksOf(t.content))
  }

  function BlockUseIds<J>(bs: seq<InBlock<J>>): seq<string> {
    if bs == [] then []
    else BlockUseIds(bs[..|bs| - 1]) + (if bs[|bs| - 1].InToolUse? then [bs[|bs| - 1].id.GetOr("")] else [])
  }

  function BlockResultIds<J>(bs: seq<InBlock<J>>): seq<string> {
    if bs == [] then []
    else
      var front, b := BlockResultIds(bs[..|bs| - 1]), bs[|bs| - 1];
      if b.InToolResult? then front + [b.toolUseId.GetOr("")] else front
  }

  function CallIds(calls: seq<ToolCall>): seq<string> {
    seq(|calls|, k requires 0 <= k < |calls| => calls[k].id.GetOr(""))
  }

  /** The ids a message calls for, and the id it answers. */
  function Calls(m: OutMessage): seq<string> {
    if m.AssistantMessage? then CallIds(m.message.toolCalls) else []
  }

  function Answers(m: OutMessage): seq<string> {
    if m.ToolMessage? then [m.toolCallId] else []
  }

  function AllCalls(ms: seq<OutMessage>): seq<string> {
    if ms == [] then [] else AllCalls(ms[..|ms| - 1]) + Calls(ms[|ms| - 1])
  }

  function AllAnswers(ms: seq<OutMessage>): seq<string> {
    if ms == [] then [] else AllAnswers(ms[..|ms| - 1]) + Answers(ms[|ms| - 1])
  }

  function AllUses<J>(turns: seq<Turn<J>>): seq<string> {
    if turns == [] then [] else UseIds(turns[0]) + AllUses(turns[1..])
  }

  function AllResults<J>(turns: seq<Turn<J>>): seq<string> {
    if turns == [] then [] else ResultIds(turns[0]) + AllResults(turns[1..])
  }

  lemma {:induction false} AllCallsConcat(a: seq<OutMessage>, b: seq<OutMessage>)
    ensures AllCalls(a + b) == AllCalls(a) + AllCalls(b)
  {
    hide Calls;
    if b == [] {
      assert a + b == a;
    } else {
      var n := |b| - 1;
      AllCallsConcat(a, b[..n]);
      Front(a, b);
      Assoc(AllCalls(a), AllCalls(b[..n]), Calls(b[n]));
    }
  }

  lemma {:induction false} AllAnswersConcat(a: seq<OutMessage>, b: seq<OutMessage>)
    ensures AllAnswers(a + b) == AllAnswers(a) + AllAnswers(b)
  {
    hide Answers;
    if b == [] {
      assert a + b == a;
    } else {
      var n := |b| - 1;
      AllAnswersConcat(a, b[..n]);
      Front(a, b);
      Assoc(AllAnswers(a), AllAnswers(b[..n]), Answers(b[n]));
    }
  }

  lemma AllOfOne(m: OutMessage)
    ensures AllCalls([m]) == Calls(m) && AllAnswers([m]) == Answers(m)
  {
    assert [m][..0] == [];
  }

  lemma {:induction false} CallsKeepIds<J(!new)>(codec: Codec<J>, bs: seq<InBlock<J>>)
    ensures CallIds(CallsOf(codec, bs)) == BlockUseIds(bs)
  {
    if bs != [] {
      CallsKeepIds(codec, bs[..|bs| - 1]);
      var before, last := CallsOf(codec, bs[..|bs| - 1]), CallOf(codec, bs[|bs| - 1]);
      assert CallIds(before + last) == CallIds(before) + CallIds(last);
    }
  }

  lemma {:induction false} ToolMessagesKeepIds<J(!new)>(codec: Codec<J>, bs: seq<InBlock<J>>)
    ensures AllAnswers(ToolMessagesOf(codec, bs)) == BlockResultIds(bs)
    ensures OnlyTools(ToolMessagesOf(codec, bs))
  {
    if bs != [] {
      var before, last := ToolMessagesOf(codec, bs[..|bs| - 1]), ToolMessageOf(codec, bs[|bs| - 1]);
      ToolMessagesKeepIds(codec, bs[..|bs| - 1]);
      AllAnswersConcat(before, last);
      if last != [] {
        AllOfOne(last[0]);
      }
    }
  }

  ghost predicate OnlyTools(ms: seq<OutMessage>) {
    forall k :: 0 <= k < |ms| ==> ms[k].ToolMessage?
  }

  lemma {:induction false} ToolsMakeNoCalls(ms: seq<OutMessage>)
    requires OnlyTools(ms)
    ensures AllCalls(ms) == []
    ensures |AllAnswers(ms)| == |ms|
  {
    if ms != [] {
      ToolsMakeNoCalls(ms[..|ms| - 1]);
    }
  }

  lemma UserKeepsNoIds<J>(c: Content<J>)
    ensures AllCalls(UserOf(c)) == [] && AllAnswers(UserOf(c)) == []
  {
    if UserOf(c) != [] {
      AllOfOne(UserOf(c)[0]);
    }
  }

  lemma TurnKeepsIds<J(!new)>(codec: Codec<J>, t: Turn<J>)
    ensures AllCalls(MessagesOf(codec, t)) == UseIds(t)
    ensures AllAnswers(MessagesOf(codec, t)) == ResultIds(t)
  {
    var bs := BlocksOf(t.content);
    if t.role == "assistant" {
      CallsKeepIds(codec, bs);
      AllOfOne(AssistantMessage(AssistantOf(codec, t.content)));
    } else {
      hide AllCalls, AllAnswers, UserOf, ToolMessagesOf, BlockResultIds;
      var tools, user := ToolMessagesOf(codec, bs), UserOf(t.content);
      ToolMessagesKeepIds(codec, bs);
      ToolsMakeNoCalls(tools);
      UserKeepsNoIds(t.content);
      AllCallsConcat(tools, user);
      AllAnswersConcat(tools, user);
    }
  }

  /** The tool_use ids of assistant turns and the tool_result ids of the others come through: none lost, invented or
      reordered. */
  lemma {:induction false} IdsConserved<J(!new)>(codec: Codec<J>, turns: seq<Turn<J>>)
    ensures AllCalls(Translated(codec, turns)) == AllUses(turns)
    ensures AllAnswers(Translated(codec, turns)) == AllResults(turns)
  {
    if turns != [] {
      IdsConserved(codec, turns[1..]);
      TurnKeepsIds(codec, turns[0]);
      AllCallsConcat(MessagesOf(codec, turns[0]), Translated(codec, turns[1..]));
      AllAnswersConcat(MessagesOf(codec, turns[0]), Translated(codec, turns[1..]));
    }
  }

  // What a turn holds whatever its role, and what of it is dropped.

  function EveryUse<J>(turns: seq<Turn<J>>): seq<string> {
    if turns == [] then [] else BlockUseIds(BlocksOf(turns[0].content)) + EveryUse(turns[1..])
  }

  function EveryResult<J>(turns: seq<Turn<J>>): seq<string> {
    if turns == [] then [] else BlockResultIds(BlocksOf(turns[0].content)) + EveryResult(turns[1..])
  }

  /** No tool_use outside an assistant turn. */
  predicate UsesInPlace<J>(turns: seq<Turn<J>>) {
    turns == [] || (UsesOfTurnInPlace(turns[0]) && UsesInPlace(turns[1..]))
  }

  predicate UsesOfTurnInPlace<J>(t: Turn<J>) {
    t.role == "assistant" || BlockUseIds(BlocksOf(t.content)) == []
  }

  /** No tool_result inside one. */
  predicate ResultsInPlace<J>(turns: seq<Turn<J>>) {
    turns == [] || (ResultsOfTurnInPlace(turns[0]) && ResultsInPlace(turns[1..]))
  }

  predicate ResultsOfTurnInPlace<J>(t: Turn<J>) {
    t.role != "assistant" || BlockResultIds(BlocksOf(t.content)) == []
  }

  lemma {:induction false} UsesDropped<J>(turns: seq<Turn<J>>)
    ensures |AllUses(turns)| <= |EveryUse(turns)|
    ensures AllUses(turns) == EveryUse(turns) <==> UsesInPlace(turns)
  {
    if turns != [] {
      UsesDropped(turns[1..]);
      var ids := BlockUseIds(BlocksOf(turns[0].content));
      hide BlockUseIds, BlocksOf;
      SamePart(ids, AllUses(turns[1..]), EveryUse(turns[1..]));
    }
  }

  lemma {:induction false} ResultsDropped<J>(turns: seq<Turn<J>>)
    ensures |AllResults(turns)| <= |EveryResult(turns)|
    ensures AllResults(turns) == EveryResult(turns) <==> ResultsInPlace(turns)
  {
    if turns != [] {
      ResultsDropped(turns[1..]);
      var ids := BlockResultIds(BlocksOf(turns[0].content));
      hide BlockResultIds, BlocksOf;
      SamePart(ids, AllResults(turns[1..]), EveryResult(turns[1..]));
    }
  }

  lemma SamePart<T>(front: seq<T>, a: seq<T>, b: seq<T>)
    requires |a| <= |b|
    ensures front + a == front + b <==> a == b
    ensures front != [] ==> a != front + b
  {
    if front + a == front + b {
      assert a == (front + a)[|front|..] == (front + b)[|front|..] == b;
    }
  }

  /** Every tool_use id becomes a tool_call id exactly when none stands outside an assistant turn, and every tool_result
      a tool message exactly when none stands inside one: those are dropped. */
  lemma EveryIdConservedIff<J(!new)>(codec: Codec<J>, turns: seq<Turn<J>>)
    ensures AllCalls(Translated(codec, turns)) == EveryUse(turns) <==> UsesInPlace(turns)
    ensures AllAnswers(Translated(codec, turns)) == EveryResult(turns) <==> ResultsInPlace(turns)
  {
    IdsConserved(codec, turns);
    UsesDropped(turns);
    ResultsDropped(turns);
  }

  // ----- pairing

  /** Anthropic's rule: a turn with tool_use blocks is answered by the very next turn, and by nothing else. */
  ghost predicate TurnsPaired<J>(turns: seq<Turn<J>>) {
    && (forall i :: 0 <= i < |turns| && UseIds(turns[i]) != [] ==>
          i + 1 < |turns| && multiset(ResultIds(turns[i + 1])) == multiset(UseIds(turns[i])))
    && (forall i :: 0 <= i < |turns| && ResultIds(turns[i]) != [] ==> 0 < i && UseIds(turns[i - 1]) != [])
  }

  /** The tool messages at the front. */
  function ToolRun(ms: seq<OutMessage>): (n: nat)
    ensures n <= |ms|
    ensures forall k :: 0 <= k < n ==> ms[k].ToolMessage?
    ensures n < |ms| ==> !ms[n].ToolMessage?
  {
    if ms == [] || !ms[0].ToolMessage? then 0 else 1 + ToolRun(ms[1..])
  }

  /** OpenAI's rule: a message with tool_calls is followed by exactly its own tool messages, before
      anything else, and a tool message appears nowhere else. */
  ghost predicate MessagesPaired(ms: seq<OutMessage>)
    decreases |ms|
  {
    if ms == [] then true
    else if ms[0].ToolMessage? then false
    else if Calls(ms[0]) == [] then MessagesPaired(ms[1..])
    else
      var n := ToolRun(ms[1..]);
      && multiset(AllAnswers(ms[1..n + 1])) == multiset(Calls(ms[0]))
      && MessagesPaired(ms[n + 1..])
  }

  lemma RunBeforeRest(tools: seq<OutMessage>, rest: seq<OutMessage>)
    requires OnlyTools(tools)
    requires rest == [] || !rest[0].ToolMessage?
    ensures ToolRun(tools + rest) == |tools|
  {
    var all := tools + rest;
    assert forall k :: 0 <= k < |tools| ==> all[k].ToolMessage?;
    assert |tools| < |all| ==> all[|tools|] == rest[0];
  }

  /** A call, its answers, and a paired rest are paired. */
  lemma CallThenAnswers(call: OutMessage, tools: seq<OutMessage>, rest: seq<OutMessage>)
    requires Calls(call) != [] && OnlyTools(tools) && MessagesPaired(rest)
    requires multiset(AllAnswers(tools)) == multiset(Calls(call))
    ensures MessagesPaired([call] + (tools + rest))
  {
    var ms := [call] + (tools + rest);
    RunBeforeRest(tools, rest);
    assert ms[0] == call && ms[1..] == tools + rest;
    Slices(call, tools, rest);
  }

  lemma Slices<T>(x: T, a: seq<T>, b: seq<T>)
    ensures ([x] + (a + b))[1..|a| + 1] == a
    ensures ([x] + (a + b))[|a| + 1..] == b
  {
  }

  lemma UserThenPaired<J>(c: Content<J>, rest: seq<OutMessage>)
    requires MessagesPaired(rest)
    ensures MessagesPaired(UserOf(c) + rest)
  {
    var user := UserOf(c);
    if user == [] {
      assert user + rest == rest;
    } else {
      assert (user + rest)[1..] == rest;
    }
  }

  lemma NoToolsFirst<J(!new)>(codec: Codec<J>, t: Turn<J>, rest: seq<OutMessage>)
    requires UseIds(t) == [] && ResultIds(t) == []
    requires MessagesPaired(rest)
    ensures MessagesPaired(MessagesOf(codec, t) + rest)
  {
    var ms := MessagesOf(codec, t);
    if t.role == "assistant" {
      CallsKeepIds(codec, BlocksOf(t.content));
      assert (ms + rest)[1..] == rest;
    } else {
      var tools := ToolMessagesOf(codec, BlocksOf(t.content));
      ToolMessagesKeepIds(codec, BlocksOf(t.content));
      ToolsMakeNoCalls(tools);
      assert ms == UserOf(t.content);
      UserThenPaired(t.content, rest);
    }
  }

  lemma TailPaired<J>(turns: seq<Turn<J>>, k: nat)
    requires TurnsPaired(turns)
    requires 1 <= k <= |turns| && UseIds(turns[k - 1]) == []
    ensures TurnsPaired(turns[k..])
  {
    var rest := turns[k..];
    forall i | 0 <= i < |rest|
      ensures UseIds(rest[i]) != [] ==>
                i + 1 < |rest| && multiset(ResultIds(rest[i + 1])) == multiset(UseIds(rest[i]))
      ensures ResultIds(rest[i]) != [] ==> 0 < i && UseIds(rest[i - 1]) != []
    {
      assert rest[i] == turns[i + k];
    }
  }

  /** Paired turns translate to paired messages. */
  lemma {:induction false} PairingPreserved<J(!new)>(codec: Codec<J>, turns: seq<Turn<J>>)
    requires TurnsPaired(turns)
    ensures MessagesPaired(Translated(codec, turns))
    decreases |turns|
  {
    if turns != [] {
      var t := turns[0];
      if UseIds(t) == [] {
        TailPaired(turns, 1);
        PairingPreserved(codec, turns[1..]);
        NoToolsFirst(codec, t, Translated(codec, turns[1..]));
      } else {
        var u := turns[1];
        assert u.role != "assistant";
        TailPaired(turns, 2);
        PairingPreserved(codec, turns[2..]);
        assert turns[1..][1..] == turns[2..];
        CallsKeepIds(codec, BlocksOf(t.content));
        ToolMessagesKeepIds(codec, BlocksOf(u.content));
        var call, tools, after := AssistantMessage(AssistantOf(codec, t.content)),
            ToolMessagesOf(codec, BlocksOf(u.content)), Translated(codec, turns[2..]);
        UserThenPaired(u.content, after);
        Assoc(tools, UserOf(u.content), after);
        CallThenAnswers(call, tools, UserOf(u.content) + after);
      }
    }
  }

  // ----- round trip of an assistant turn

  function UsesOf<J(!new)>(codec: Codec<J>, bs: seq<InBlock<J>>): seq<Block<J>> {
    if bs == [] then []
    else
      var n := |bs| - 1;
      UsesOf(codec, bs[..n]) +
      (if bs[n].InToolUse? then [ToolUse(bs[n].id.GetOr(""), bs[n].name.GetOr(""), bs[n].input.GetOr(codec.empty))]
       else [])
  }

  /** One text block, if there is any text, then the tool uses in order. */
  function NormalForm<J(!new)>(codec: Codec<J>, c: Content<J>): seq<Block<J>> {
    TextBlocks<J>(TextOf(c)) + UsesOf(codec, BlocksOf(c))
  }

  lemma {:induction false} CallsReadBack<J(!new)>(codec: Codec<J>, bs: seq<InBlock<J>>)
    requires codec.Valid()
    ensures ToolUses(codec, CallsOf(codec, bs)) == UsesOf(codec, bs)
  {
    if bs != [] {
      var n := |bs| - 1;
      CallsReadBack(codec, bs[..n]);
      var before, last := CallsOf(codec, bs[..n]), CallOf(codec, bs[n]);
      assert ToolUses(codec, before + last) == ToolUses(codec, before) + ToolUses(codec, last);
    }
  }

  /** Sent out as a request and read back as a response, an assistant turn comes back in normal form. */
  lemma RoundTrip<J(!new)>(codec: Codec<J>, c: Content<J>, finish: Option<string>, reported: Option<string>,
                           usage: Usage,
                           model: string, stops: seq<string>, reply: Reply<J>)
    requires codec.Valid()
    requires IsReplyTo(codec, Response([Choice(AssistantOf(codec, c), finish, reported)], usage), model, stops, reply)
    ensures reply.content == NormalForm(codec, c)
  {
    CallsReadBack(codec, BlocksOf(c));
  }

  function Resent<J>(blocks: seq<Block<J>>): (r: seq<InBlock<J>>)
    ensures |r| == |blocks|
  {
    seq(|blocks|, k requires 0 <= k < |blocks| =>
      if blocks[k].Text? then InText(Some(blocks[k].text))
      else InToolUse(Some(blocks[k].id), Some(blocks[k].name), Some(blocks[k].input)))
  }

  lemma ResentNext<J(!new)>(codec: Codec<J>, blocks: seq<Block<J>>)
    requires blocks != [] && blocks[|blocks| - 1].ToolUse?
    ensures var n := |blocks| - 1;
            && UsesOf(codec, Resent(blocks)) == UsesOf(codec, Resent(blocks[..n])) + [blocks[n]]
            && PartsOf(Resent(blocks)) == PartsOf(Resent(blocks[..n]))
  {
    ResentInit(blocks);
    hide Resent;
  }

  lemma {:induction false} ResentUses<J(!new)>(codec: Codec<J>, head: seq<Block<J>>, uses: seq<Block<J>>)
    requires |head| <= 1 && (head != [] ==> head[0].Text?)
    requires forall k :: 0 <= k < |uses| ==> uses[k].ToolUse?
    ensures UsesOf(codec, Resent(head + uses)) == uses
    ensures PartsOf(Resent(head + uses)) == if head == [] then [] else [OutText(head[0].text)]
  {
    hide *;
    if uses == [] {
      assert head + uses == head;
      ResentHead(codec, head);
    } else {
      var n := |uses| - 1;
      ResentUses(codec, head, uses[..n]);
      Front(head, uses);
      ResentNext(codec, head + uses);
      assert uses == uses[..n] + [uses[n]];
    }
  }

  lemma ResentHead<J(!new)>(codec: Codec<J>, head: seq<Block<J>>)
    requires |head| <= 1 && (head != [] ==> head[0].Text?)
    ensures UsesOf(codec, Resent(head)) == []
    ensures PartsOf(Resent(head)) == if head == [] then [] else [OutText(head[0].text)]
  {
    if head != [] {
      assert Resent(head)[..0] == [];
    }
  }

  lemma ResentInit<J>(blocks: seq<Block<J>>)
    requires blocks != []
    ensures var n := |blocks| - 1;
            Resent(blocks)[..n] == Resent(blocks[..n]) &&
            Resent(blocks)[n] == (if blocks[n].Text? then InText(Some(blocks[n].text))
                                  else InToolUse(Some(blocks[n].id), Some(blocks[n].name), Some(blocks[n].input)))
  {
  }

  lemma {:induction false} UsesAreToolUses<J(!new)>(codec: Codec<J>, bs: seq<InBlock<J>>)
    ensures forall k :: 0 <= k < |UsesOf(codec, bs)| ==> UsesOf(codec, bs)[k].ToolUse?
  {
    if bs != [] {
      UsesAreToolUses(codec, bs[..|bs| - 1]);
    }
  }

  /** A turn already in normal form comes back unchanged. */
  lemma NormalFormIsFixed<J(!new)>(codec: Codec<J>, c: Content<J>)
    ensures NormalForm(codec, Blocks(Resent(NormalForm(codec, c)))) == NormalForm(codec, c)
  {
    var head := TextBlocks<J>(TextOf(c));
    UsesAreToolUses(codec, BlocksOf(c));
    ResentUses(codec, head, UsesOf(codec, BlocksOf(c)));
    if head != [] {
      assert [OutText(TextOf(c))][..0] == [];
      assert TextOfParts([OutText(TextOf(c))]) == "" + TextOf(c) == TextOf(c);
    }
  }
}

/** The streaming half of openai_compat.py. The translator is checked against a strict client of the
    Anthropic event protocol, which breaks on the first event out of place, and against the
    whole-response translation of the message the chunks add up to. */
module OpenAiStream {
  import opened Wrappers
  import opened OpenAiResponse

  // ----- input: OpenAI stream lines

  datatype ToolDelta = ToolDelta(index: Option<int>, id: Option<string>, name: Option<string>,
                                 arguments: Option<string>)
  datatype DeltaChoice = DeltaChoice(content: Option<string>, toolCalls: seq<ToolDelta>,
                                     finishReason: Option<string>, stopReason: Option<string>)
  datatype Chunk = Chunk(choices: seq<DeltaChoice>, usage: Usage)
  // Other: not a "data:" line. Malformed: not JSON. Done: the [DONE] marker.
  datatype Line = Other | Malformed | Done | Data(chunk: Chunk)

  const EMPTY_DELTA := DeltaChoice(None, [], None, None)

  function FirstDelta(c: Chunk): DeltaChoice {
    if c.choices == [] then EMPTY_DELTA else c.choices[0]
  }

  /** Where the first [DONE] from line i on is, or the end of the lines. */
  function DoneAt(lines: seq<Line>, i: nat): (n: nat)
    requires i <= |lines|
    ensures i <= n <= |lines|
    decreases |lines| - i
  {
    if i == |lines| || lines[i] == Done then i else DoneAt(lines, i + 1)
  }

  function DataBefore(lines: seq<Line>, n: nat): seq<Chunk>
    requires n <= |lines|
  {
    if n == 0 then []
    else if lines[n - 1].Data? then DataBefore(lines, n - 1) + [lines[n - 1].chunk]
    else DataBefore(lines, n - 1)
  }

  /** The chunks a reader gets. */
  function Chunks(lines: seq<Line>): seq<Chunk> {
    DataBefore(lines, DoneAt(lines, 0))
  }

  lemma {:induction false} DoneAtIs(lines: seq<Line>, n: nat, i: nat)
    requires i <= n <= |lines| && (n == |lines| || lines[n] == Done)
    requires forall j :: i <= j < n ==> lines[j] != Done
    ensures DoneAt(lines, i) == n
    decreases n - i
  {
    if i < n {
      DoneAtIs(lines, n, i + 1);
    }
  }

  lemma {:induction false} DataBeforeOnly(a: seq<Line>, b: seq<Line>, n: nat)
    requires n <= |a|
    ensures DataBefore(a + b, n) == DataBefore(a, n)
  {
    if n > 0 {
      DataBeforeOnly(a, b, n - 1);
    }
  }

  /** A reader stops at the first [DONE]; before it every line that holds a chunk adds that chunk, and no other does. */
  lemma ChunksRead(a: seq<Line>, line: Line, b: seq<Line>)
    requires Done !in a
    ensures Chunks([]) == []
    ensures line == Done ==> Chunks(a + [line] + b) == Chunks(a)
    ensures line.Data? ==> Chunks(a + [line]) == Chunks(a) + [line.chunk]
    ensures line == Other || line == Malformed ==> Chunks(a + [line]) == Chunks(a)
  {
    DoneAtIs(a, |a|, 0);
    DataBeforeOnly(a, [line], |a|);
    if line == Done {
      DoneAtIs(a + [line] + b, |a|, 0);
      DataBeforeOnly(a, [line] + b, |a|);
      Assoc(a, [line], b);
    } else {
      DoneAtIs(a + [line], |a| + 1, 0);
    }
  }

  // ----- the message the chunks add up to

  datatype Tool = Tool(index: int, id: string, name: string, arguments: string)
  datatype Acc = Acc(text: string, tools: seq<Tool>, finish: Option<string>, reported: Option<string>, usage: Usage)

  /** The position of the tool with this index, or |tools|. */
  function Find(tools: seq<Tool>, index: int): (k: nat)
    ensures k <= |tools|
    ensures k < |tools| ==> tools[k].index == index
    ensures forall j :: 0 <= j < k ==> tools[j].index != index
  {
    if tools == [] then 0
    else
      var n := |tools| - 1;
      var k := Find(tools[..n], index);
      if k < n || tools[n].index == index then k else n + 1
  }

  function AddDelta(tools: seq<Tool>, d: ToolDelta): seq<Tool> {
    var index := d.index.GetOr(0);
    var k := Find(tools, index);
    var known := if k < |tools| then tools else tools + [Tool(index, d.id.GetOr(""), d.name.GetOr(""), "")];
    known[k := known[k].(arguments := known[k].arguments + d.arguments.GetOr(""))]
  }

  function AddDeltas(tools: seq<Tool>, ds: seq<ToolDelta>): seq<Tool> {
    if ds == [] then tools else AddDelta(AddDeltas(tools, ds[..|ds| - 1]), ds[|ds| - 1])
  }

  function AddChunk(acc: Acc, c: Chunk): Acc {
    var d := FirstDelta(c);
    var ended := d.finishReason.GetOr("") != "";
    Acc(acc.text + d.content.GetOr(""),
        AddDeltas(acc.tools, d.toolCalls),
        if ended then d.finishReason else acc.finish,
        if ended then d.stopReason else acc.reported,
        if c.usage == map[] then acc.usage else c.usage)
  }

  function Accumulate(cs: seq<Chunk>): Acc {
    if cs == [] then Acc("", [], None, None, map[]) else AddChunk(Accumulate(cs[..|cs| - 1]), cs[|cs| - 1])
  }

  /** The whole response an accumulator stands for. */
  function AsResponse(acc: Acc): Response {
    var calls := seq(|acc.tools|, k requires 0 <= k < |acc.tools| =>
      ToolCall(Some(acc.tools[k].id), Some(acc.tools[k].name), Some(acc.tools[k].arguments)));
    Response([Choice(OMessage(Some(acc.text), calls), acc.finish, acc.reported)], acc.usage)
  }

  // ----- what accumulating means, index by index

  function AllDeltas(cs: seq<Chunk>): seq<ToolDelta> {
    if cs == [] then [] else AllDeltas(cs[..|cs| - 1]) + FirstDelta(cs[|cs| - 1]).toolCalls
  }

  /** The indexes in order of first appearance. */
  function Seen(ds: seq<ToolDelta>): seq<int> {
    if ds == [] then []
    else
      var before, index := Seen(ds[..|ds| - 1]), ds[|ds| - 1].index.GetOr(0);
      if index in before then before else before + [index]
  }

  function FirstFor(ds: seq<ToolDelta>, index: int): Option<ToolDelta> {
    if ds == [] then None
    else
      var before, d := FirstFor(ds[..|ds| - 1], index), ds[|ds| - 1];
      if before.None? && d.index.GetOr(0) == index then Some(d) else before
  }

  function ArgumentsFor(ds: seq<ToolDelta>, index: int): string {
    if ds == [] then ""
    else
      var d := ds[|ds| - 1];
      ArgumentsFor(ds[..|ds| - 1], index) + (if d.index.GetOr(0) == index then d.arguments.GetOr("") else "")
  }

  ghost predicate IsToolFor(t: Tool, ds: seq<ToolDelta>, index: int) {
    var first := FirstFor(ds, index);
    && first.Some?
    && t == Tool(index, first.value.id.GetOr(""), first.value.name.GetOr(""), ArgumentsFor(ds, index))
  }

  lemma {:induction false} NothingBefore(ds: seq<ToolDelta>, index: int)
    requires index !in Seen(ds)
    ensures FirstFor(ds, index) == None && ArgumentsFor(ds, index) == ""
  {
    if ds != [] {
      NothingBefore(ds[..|ds| - 1], index);
    }
  }

  /** Each tool is its index's first id and name with all of its fragments, in order of first appearance. */
  lemma {:induction false} DeltasGroupByIndex(ds: seq<ToolDelta>)
    ensures var tools := AddDeltas([], ds);
            |tools| == |Seen(ds)| &&
            forall k :: 0 <= k < |tools| ==> IsToolFor(tools[k], ds, Seen(ds)[k])
  {
    if ds != [] {
      var n := |ds| - 1;
      var before, d := ds[..n], ds[n];
      var index := d.index.GetOr(0);
      DeltasGroupByIndex(before);
      var had, k := AddDeltas([], before), Find(AddDeltas([], before), index);
      if k == |had| {
        forall j | 0 <= j < |had| ensures Seen(before)[j] != index {
          assert IsToolFor(had[j], before, Seen(before)[j]);
        }
        NothingBefore(before, index);
      } else {
        assert IsToolFor(had[k], before, Seen(before)[k]);
      }
      var tools := AddDeltas([], ds);
      forall j | 0 <= j < |tools| ensures IsToolFor(tools[j], ds, Seen(ds)[j]) {
        if j < |had| {
          assert IsToolFor(had[j], before, Seen(before)[j]);
          SeenOnce(before, j, index);
        }
      }
    }
  }

  lemma {:induction false} SeenOnce(ds: seq<ToolDelta>, j: nat, index: int)
    requires j < |AddDeltas([], ds)| && |AddDeltas([], ds)| == |Seen(ds)|
    requires forall k :: 0 <= k < |Seen(ds)| ==> AddDeltas([], ds)[k].index == Seen(ds)[k]
    ensures Seen(ds)[j] == index ==> Find(AddDeltas([], ds), index) == j
  {
    SeenDistinct(ds);
  }

  lemma {:induction false} SeenDistinct(ds: seq<ToolDelta>)
    ensures Distinct(Seen(ds))
  {
    if ds != [] {
      SeenDistinct(ds[..|ds| - 1]);
    }
  }

  lemma {:induction false} AddDeltasConcat(tools: seq<Tool>, a: seq<ToolDelta>, b: seq<ToolDelta>)
    ensures AddDeltas(tools, a + b) == AddDeltas(AddDeltas(tools, a), b)
  {
    if b == [] {
      assert a + b == a;
    } else {
      assert (a + b)[..|a + b| - 1] == a + b[..|b| - 1];
      AddDeltasConcat(tools, a, b[..|b| - 1]);
    }
  }

  lemma {:induction false} AccumulatedTools(cs: seq<Chunk>)
    ensures Accumulate(cs).tools == AddDeltas([], AllDeltas(cs))
    ensures var ds, tools := AllDeltas(cs), Accumulate(cs).tools;
            |tools| == |Seen(ds)| &&
            forall k :: 0 <= k < |tools| ==> IsToolFor(tools[k], ds, Seen(ds)[k])
  {
    if cs != [] {
      AccumulatedTools(cs[..|cs| - 1]);
      AddDeltasConcat([], AllDeltas(cs[..|cs| - 1]), FirstDelta(cs[|cs| - 1]).toolCalls);
    }
    DeltasGroupByIndex(AllDeltas(cs));
  }

  // ----- what accumulating means for text, finish and usage

  /** The content of each chunk's first choice. */
  function Pieces(cs: seq<Chunk>): seq<string> {
    seq(|cs|, k requires 0 <= k < |cs| => if cs[k].choices == [] then "" else cs[k].choices[0].content.GetOr(""))
  }

  predicate Ends(c: Chunk) {
    c.choices != [] && c.choices[0].finishReason.GetOr("") != ""
  }

  /** The last chunk that gives a finish_reason, or -1. */
  function LastEnd(cs: seq<Chunk>): (k: int)
    ensures -1 <= k < |cs|
    ensures k >= 0 ==> Ends(cs[k])
    ensures forall j :: k < j < |cs| ==> !Ends(cs[j])
  {
    if cs == [] then -1 else if Ends(cs[|cs| - 1]) then |cs| - 1 else LastEnd(cs[..|cs| - 1])
  }

  /** The last chunk that has usage, or -1. */
  function LastUsed(cs: seq<Chunk>): (k: int)
    ensures -1 <= k < |cs|
    ensures k >= 0 ==> cs[k].usage != map[]
    ensures forall j :: k < j < |cs| ==> cs[j].usage == map[]
  {
    if cs == [] then -1 else if cs[|cs| - 1].usage != map[] then |cs| - 1 else LastUsed(cs[..|cs| - 1])
  }

  /** What stopped the stream is what the last chunk that gives a finish_reason says, in its first choice. */
  ghost predicate EndedBy(cs: seq<Chunk>, finish: Option<string>, reported: Option<string>) {
    var k := LastEnd(cs);
    if k == -1 then finish == None && reported == None
    else finish == cs[k].choices[0].finishReason && reported == cs[k].choices[0].stopReason
  }

  /** The usage is that of the last chunk that has one. */
  ghost predicate UsedBy(cs: seq<Chunk>, usage: Usage) {
    usage == if LastUsed(cs) == -1 then map[] else cs[LastUsed(cs)].usage
  }

  /** The calls are the tool deltas grouped by index, in order of first appearance. */
  ghost predicate CalledBy(cs: seq<Chunk>, calls: seq<ToolCall>) {
    var ds := AllDeltas(cs);
    && |calls| == |Seen(ds)|
    && forall k :: 0 <= k < |calls| ==>
         var first := FirstFor(ds, Seen(ds)[k]);
         && first.Some?
         && calls[k] == ToolCall(Some(first.value.id.GetOr("")), Some(first.value.name.GetOr("")),
                                 Some(ArgumentsFor(ds, Seen(ds)[k])))
  }

  /** The whole response the chunks stand for, said of the chunks alone. */
  ghost predicate AddsUpTo(cs: seq<Chunk>, resp: Response) {
    && |resp.choices| == 1
    && var choice := resp.choices[0];
    && choice.message.content == Some(Flatten(Pieces(cs)))
    && CalledBy(cs, choice.message.toolCalls)
    && EndedBy(cs, choice.finishReason, choice.stopReason)
    && UsedBy(cs, resp.usage)
  }

  lemma {:induction false} AccumulatedText(cs: seq<Chunk>)
    ensures Accumulate(cs).text == Flatten(Pieces(cs))
  {
    if cs != [] {
      var n := |cs| - 1;
      AccumulatedText(cs[..n]);
      assert Pieces(cs)[..n] == Pieces(cs[..n]);
    }
  }

  lemma {:induction false} AccumulatedEnd(cs: seq<Chunk>)
    ensures EndedBy(cs, Accumulate(cs).finish, Accumulate(cs).reported)
    ensures UsedBy(cs, Accumulate(cs).usage)
  {
    hide AddDeltas;
    if cs != [] {
      AccumulatedEnd(cs[..|cs| - 1]);
    }
  }

  /** The accumulated message is the one the chunks stand for. */
  lemma AccumulatesTo(cs: seq<Chunk>)
    ensures AddsUpTo(cs, AsResponse(Accumulate(cs)))
  {
    AccumulatedText(cs);
    AccumulatedEnd(cs);
    AccumulatedTools(cs);
    hide Accumulate, EndedBy, UsedBy, Pieces;
  }

  /** The chunks stand for one message only. */
  lemma WholeIsUnique(cs: seq<Chunk>, a: Response, b: Response)
    requires AddsUpTo(cs, a) && AddsUpTo(cs, b)
    ensures a == b
  {
    hide LastEnd, LastUsed, Pieces;
    assert a.choices[0].message.toolCalls == b.choices[0].message.toolCalls;
  }

  // ----- output: Anthropic events, and a client that insists on the protocol

  datatype StartBlock = StartText | StartTool(id: string, name: string)
  datatype Event =
    | MessageStart(model: string)
    | BlockStart(index: nat, start: StartBlock)
    | TextDelta(index: nat, text: string)
    | JsonDelta(index: nat, json: string)
    | BlockStop(index: nat)
    | MessageDelta(stopReason: string, stopSequence: Option<string>, inputTokens: int, outputTokens: int)
    | MessageStop

  datatype Part = TextPart(text: string) | ToolPart(id: string, name: string, json: string)
  datatype Client =
    | Fresh
    | Receiving(model: string, parts: seq<Part>, open: set<nat>)
    | Closing(model: string, parts: seq<Part>, stopReason: string, stopSequence: Option<string>,
              inputTokens: int, outputTokens: int)
    | Finished(model: string, parts: seq<Part>, stopReason: string, stopSequence: Option<string>,
               inputTokens: int, outputTokens: int)
    | Broken

  function EmptyPart(start: StartBlock): Part {
    match start
    case StartText => TextPart("")
    case StartTool(id, name) => ToolPart(id, name, "")
  }

  function Step(c: Client, e: Event): Client {
    match (c, e)
    case (Fresh, MessageStart(model)) => Receiving(model, [], {})
    case (Receiving(model, parts, open), BlockStart(i, start)) =>
      if i != |parts| then Broken
      else Receiving(model, parts + [EmptyPart(start)], open + {i})
    case (Receiving(model, parts, open), TextDelta(i, t)) =>
      if i !in open || i >= |parts| || !parts[i].TextPart? then Broken
      else Receiving(model, parts[i := TextPart(parts[i].text + t)], open)
    case (Receiving(model, parts, open), JsonDelta(i, t)) =>
      if i !in open || i >= |parts| || !parts[i].ToolPart? then Broken
      else Receiving(model, parts[i := parts[i].(json := parts[i].json + t)], open)
    case (Receiving(model, parts, open), BlockStop(i)) =>
      if i !in open then Broken else Receiving(model, parts, open - {i})
    case (Receiving(model, parts, open), MessageDelta(reason, stop, input, output)) =>
      if open != {} then Broken else Closing(model, parts, reason, stop, input, output)
    case (Closing(model, parts, reason, stop, input, output), MessageStop) =>
      Finished(model, parts, reason, stop, input, output)
    case _ => Broken
  }

  function Receive(events: seq<Event>): Client {
    if events == [] then Fresh else Step(Receive(events[..|events| - 1]), events[|events| - 1])
  }

  /** A tool's input is parsed once its block is complete; no fragments mean the empty object. */
  function BlockOf<J(!new)>(codec: Codec<J>, part: Part): Block<J> {
    match part
    case TextPart(t) => Text(t)
    case ToolPart(id, name, json) =>
      ToolUse(id, name, if json == "" then codec.empty else codec.loads(json).GetOr(codec.empty))
  }

  function BlocksOf<J(!new)>(codec: Codec<J>, parts: seq<Part>): (r: seq<Block<J>>)
    ensures |r| == |parts|
  {
    seq(|parts|, k requires 0 <= k < |parts| => BlockOf(codec, parts[k]))
  }

  function Select<J>(blocks: seq<Block<J>>, text: bool): seq<Block<J>> {
    if blocks == [] then []
    else Select(blocks[..|blocks| - 1], text) +
         (if blocks[|blocks| - 1].Text? == text then [blocks[|blocks| - 1]] else [])
  }

  function TextFirst<J>(blocks: seq<Block<J>>): seq<Block<J>> {
    Select(blocks, true) + Select(blocks, false)
  }

  /** What a client that received everything holds, its text moved to the front. */
  function ReplyOf<J(!new)>(codec: Codec<J>, c: Client): Reply<J>
    requires c.Finished?
  {
    Reply(c.model, TextFirst(BlocksOf(codec, c.parts)), c.stopReason, c.stopSequence, c.inputTokens, c.outputTokens)
  }

  // ----- where the parts are: tools in order of first appearance, the text wherever it started

  function TextStarts(at: Option<nat>, tools: seq<Tool>): nat {
    if at.Some? then |tools| + 1 else |tools|
  }

  function PartIndex(at: Option<nat>, k: nat): nat {
    if at.Some? && at.value <= k then k + 1 else k
  }

  ghost predicate Lays(parts: seq<Part>, text: string, tools: seq<Tool>, at: Option<nat>) {
    && |parts| == TextStarts(at, tools)
    && (at.Some? ==> at.value <= |tools| && parts[at.value] == TextPart(text))
    && (forall k :: 0 <= k < |tools| ==>
          parts[PartIndex(at, k)] == ToolPart(tools[k].id, tools[k].name, tools[k].arguments))
  }

  function Upto(n: nat): (s: set<nat>)
    ensures forall i: nat :: i in s <==> i < n
  {
    if n == 0 then {} else Upto(n - 1) + {n - 1}
  }

  /** The blocks still open once the text and the first k tools are closed. */
  function Remaining(at: Option<nat>, n: nat, k: nat): set<nat> {
    set i | i in Upto(n) && at != Some(i) && k <= (if at.Some? && at.value < i then i - 1 else i)
  }

  ghost predicate Tracks(tools: seq<Tool>, at: Option<nat>, order: seq<int>, blockOf: map<int, nat>) {
    && |order| == |tools|
    && (forall index :: index in blockOf <==> Find(tools, index) < |tools|)
    && (forall k :: 0 <= k < |tools| ==>
          order[k] == tools[k].index && order[k] in blockOf && blockOf[order[k]] == PartIndex(at, k))
  }

  /** The events so far leave the client with the text and tools so far, every block still open. */
  ghost predicate Sending(events: seq<Event>, model: string, text: string, tools: seq<Tool>, at: Option<nat>,
                          next: nat) {
    var c := Receive(events);
    c.Receiving? && c.model == model && c.open == Upto(next) && next == TextStarts(at, tools)
        && Lays(c.parts, text, tools, at)
  }

  // ----- one lemma per kind of emission

  lemma Received(events: seq<Event>, e: Event)
    ensures Receive(events + [e]) == Step(Receive(events), e)
  {
    assert (events + [e])[..|events|] == events;
  }

  lemma StartTextSent(events: seq<Event>, model: string, tools: seq<Tool>, next: nat)
    requires Sending(events, model, "", tools, None, next)
    ensures Sending(events + [BlockStart(next, StartText)], model, "", tools, Some(next), next + 1)
  {
    Received(events, BlockStart(next, StartText));
    assert Upto(next) + {next} == Upto(next + 1);
  }

  lemma TextSent(events: seq<Event>, model: string, text: string, tools: seq<Tool>, at: nat, next: nat, more: string)
    requires Sending(events, model, text, tools, Some(at), next)
    ensures Sending(events + [TextDelta(at, more)], model, text + more, tools, Some(at), next)
  {
    Received(events, TextDelta(at, more));
  }

  lemma StartToolSent(events: seq<Event>, model: string, text: string, tools: seq<Tool>, at: Option<nat>, next: nat,
                      t: Tool)
    requires Sending(events, model, text, tools, at, next)
    requires t.arguments == ""
    ensures Sending(events + [BlockStart(next, StartTool(t.id, t.name))], model, text, tools + [t], at, next + 1)
  {
    Received(events, BlockStart(next, StartTool(t.id, t.name)));
    assert Upto(next) + {next} == Upto(next + 1);
  }

  lemma JsonSent(events: seq<Event>, model: string, text: string, tools: seq<Tool>, at: Option<nat>, next: nat, k: nat,
                 more: string)
    requires Sending(events, model, text, tools, at, next)
    requires k < |tools|
    ensures var t := tools[k].(arguments := tools[k].arguments + more);
            Sending(events + [JsonDelta(PartIndex(at, k), more)], model, text, tools[k := t], at, next)
  {
    Received(events, JsonDelta(PartIndex(at, k), more));
  }

  lemma NoJson(tools: seq<Tool>, k: nat)
    requires k < |tools|
    ensures tools[k := tools[k].(arguments := tools[k].arguments + "")] == tools
  {
    assert tools[k].arguments + "" == tools[k].arguments;
  }

  lemma {:induction false} TracksNewTool(tools: seq<Tool>, at: Option<nat>, order: seq<int>, blockOf: map<int, nat>,
                                         t: Tool, next: nat)
    requires Tracks(tools, at, order, blockOf)
    requires t.index !in blockOf && next == TextStarts(at, tools) && (at.Some? ==> at.value <= |tools|)
    ensures Find(tools + [t], t.index) == |tools|
    ensures Tracks(tools + [t], at, order + [t.index], blockOf[t.index := next])
  {
    assert (tools + [t])[..|tools|] == tools;
  }

  lemma TracksMoreJson(tools: seq<Tool>, at: Option<nat>, order: seq<int>, blockOf: map<int, nat>, k: nat, t: Tool)
    requires Tracks(tools, at, order, blockOf)
    requires k < |tools| && t.index == tools[k].index
    ensures Tracks(tools[k := t], at, order, blockOf)
  {
    forall index ensures Find(tools[k := t], index) == Find(tools, index) {
      FindUpdated(tools, k, t, index);
    }
  }

  lemma {:induction false} FindUpdated(tools: seq<Tool>, k: nat, t: Tool, index: int)
    requires k < |tools| && t.index == tools[k].index
    ensures Find(tools[k := t], index) == Find(tools, index)
  {
    var n := |tools| - 1;
    if k < n {
      FindUpdated(tools[..n], k, t, index);
      assert tools[k := t][..n] == tools[..n][k := t];
    } else {
      assert tools[k := t][..n] == tools[..n];
    }
  }

  lemma StopSent(tools: seq<Tool>, at: Option<nat>, k: nat)
    requires at.Some? ==> at.value <= |tools|
    requires k < |tools|
    ensures PartIndex(at, k) in Remaining(at, TextStarts(at, tools), k)
    ensures Remaining(at, TextStarts(at, tools), k) - {PartIndex(at, k)} == Remaining(at, TextStarts(at, tools), k + 1)
  {
  }

  // ----- the text-first content of a layout is the whole response's content

  lemma {:induction false} SelectConcat<J>(a: seq<Block<J>>, b: seq<Block<J>>, text: bool)
    ensures Select(a + b, text) == Select(a, text) + Select(b, text)
  {
    if b == [] {
      assert a + b == a;
    } else {
      var n := |b| - 1;
      SelectConcat(a, b[..n], text);
      Front(a, b);
      Assoc(Select(a, text), Select(b[..n], text), if b[n].Text? == text then [b[n]] else []);
    }
  }

  lemma {:induction false} SelectTools<J>(blocks: seq<Block<J>>)
    requires forall k :: 0 <= k < |blocks| ==> blocks[k].ToolUse?
    ensures Select(blocks, true) == [] && Select(blocks, false) == blocks
  {
    if blocks != [] {
      SelectTools(blocks[..|blocks| - 1]);
    }
  }

  lemma SelectOne<J>(t: Block<J>, text: bool)
    requires t.Text?
    ensures Select([t], text) == if text then [t] else []
  {
    assert [t][..0] == [];
  }

  lemma SelectMixed<J>(a: seq<Block<J>>, t: Block<J>, b: seq<Block<J>>)
    requires t.Text?
    requires forall k :: 0 <= k < |a| ==> a[k].ToolUse?
    requires forall k :: 0 <= k < |b| ==> b[k].ToolUse?
    ensures TextFirst(a + [t] + b) == [t] + (a + b)
  {
    hide Select;
    SelectTools(a);
    SelectTools(b);
    forall text: bool ensures Select(a + [t] + b, text) == Select(a, text) + Select([t], text) + Select(b, text) {
      SelectConcat(a + [t], b, text);
      SelectConcat(a, [t], text);
    }
    SelectOne(t, true);
    SelectOne(t, false);
  }

  lemma LaysUse<J(!new)>(codec: Codec<J>, parts: seq<Part>, acc: Acc, at: Option<nat>, k: nat)
    requires codec.Valid()
    requires Lays(parts, acc.text, acc.tools, at) && k < |acc.tools|
    ensures PartIndex(at, k) < |parts|
    ensures BlocksOf(codec, parts)[PartIndex(at, k)] == ToolUses(codec, AsResponse(acc).choices[0].message.toolCalls)[k]
  {
  }

  /** The blocks are the tool uses with the text, if any, put in at its place. */
  lemma LaysBlocks<J(!new)>(codec: Codec<J>, parts: seq<Part>, acc: Acc, at: Option<nat>)
    requires codec.Valid()
    requires Lays(parts, acc.text, acc.tools, at)
    ensures var blocks, uses := BlocksOf(codec, parts), ToolUses(codec, AsResponse(acc).choices[0].message.toolCalls);
            && |uses| == |acc.tools|
            && blocks == if at.None? then uses else uses[..at.value] + [Text(acc.text)] + uses[at.value..]
  {
    var blocks := BlocksOf(codec, parts);
    var uses := ToolUses(codec, AsResponse(acc).choices[0].message.toolCalls);
    forall i | 0 <= i < |blocks|
      ensures blocks[i] == if at == Some(i) then Text(acc.text) else uses[if at.Some? && at.value < i then i - 1 else i]
    {
      if at != Some(i) {
        var k := if at.Some? && at.value < i then i - 1 else i;
        LaysUse(codec, parts, acc, at, k);
      }
    }
  }

  lemma LaysWholeContent<J(!new)>(codec: Codec<J>, parts: seq<Part>, acc: Acc, at: Option<nat>)
    requires codec.Valid()
    requires Lays(parts, acc.text, acc.tools, at)
    requires at.Some? <==> acc.text != ""
    ensures TextFirst(BlocksOf(codec, parts))
         == TextBlocks<J>(acc.text) + ToolUses(codec, AsResponse(acc).choices[0].message.toolCalls)
  {
    LaysBlocks(codec, parts, acc, at);
    var uses := ToolUses(codec, AsResponse(acc).choices[0].message.toolCalls);
    hide BlocksOf, Select, AsResponse;
    if at.None? {
      SelectTools(uses);
    } else {
      SelectMixed(uses[..at.value], Text(acc.text), uses[at.value..]);
      assert uses == uses[..at.value] + uses[at.value..];
    }
  }

  // ----- the translator

  lemma AddDeltasNext(tools: seq<Tool>, ds: seq<ToolDelta>, j: nat)
    requires j < |ds|
    ensures AddDeltas(tools, ds[..j + 1]) == AddDelta(AddDeltas(tools, ds[..j]), ds[j])
  {
    assert ds[..j + 1][..j] == ds[..j];
  }

  lemma AddNoDeltas(tools: seq<Tool>, ds: seq<ToolDelta>)
    ensures AddDeltas(tools, ds[..0]) == tools && ds[..|ds|] == ds
  {
  }

  lemma AccumulateLine(lines: seq<Line>, i: nat)
    requires i < |lines|
    ensures Accumulate(DataBefore(lines, i + 1)) ==
            if lines[i].Data? then AddChunk(Accumulate(DataBefore(lines, i)), lines[i].chunk)
            else Accumulate(DataBefore(lines, i))
  {
    if lines[i].Data? {
      var before := DataBefore(lines, i);
      assert (before + [lines[i].chunk])[..|before|] == before;
    }
  }

  lemma ClosedBy(events: seq<Event>, last: Event)
    requires Receive(events).Receiving? && Receive(events).open == {} && last.MessageDelta?
    ensures Receive(events + [last] + [MessageStop])
         == Finished(Receive(events).model, Receive(events).parts, last.stopReason, last.stopSequence, last.inputTokens,
                     last.outputTokens)
  {
    Received(events, last);
    Received(events + [last], MessageStop);
  }

  // What the translator keeps about the blocks it has opened.
  datatype Out = Out(events: seq<Event>, textAt: Option<nat>, toolOrder: seq<int>, toolBlocks: map<int, nat>, next: nat)

  ghost predicate Sent(out: Out, model: string, text: string, tools: seq<Tool>) {
    && Sending(out.events, model, text, tools, out.textAt, out.next)
    && Tracks(tools, out.textAt, out.toolOrder, out.toolBlocks)
    && (out.textAt.Some? <==> text != "")
  }

  /** One chunk's text: the text block opens at the first non-empty piece. */
  method SendText(content: string, out0: Out, ghost model: string, ghost text: string, ghost tools: seq<Tool>)
      returns (out: Out)
    requires Sent(out0, model, text, tools)
    ensures Sent(out, model, text + content, tools)
  {
    out := out0;
    if content != "" {
      if out.textAt.None? {
        StartTextSent(out.events, model, tools, out.next);
        out := out.(events := out.events + [BlockStart(out.next, StartText)],
                    textAt := Some(out.next), next := out.next + 1);
      }
      TextSent(out.events, model, text, tools, out.textAt.value, out.next, content);
      out := out.(events := out.events + [TextDelta(out.textAt.value, content)]);
      assert |text + content| > 0;
    } else {
      assert text + content == text;
    }
  }

  /** One tool delta: the tool's block opens at its first delta, and a non-empty fragment follows. */
  method SendToolCall(d: ToolDelta, out0: Out, ghost model: string, ghost text: string, ghost tools0: seq<Tool>)
      returns (out: Out)
    requires Sent(out0, model, text, tools0)
    ensures Sent(out, model, text, AddDelta(tools0, d))
  {
    out := out0;
    var index := d.index.GetOr(0);
    ghost var at := out0.textAt;
    ghost var k, tools := Find(tools0, index), tools0;
    if index !in out.toolBlocks {
      ghost var t := Tool(index, d.id.GetOr(""), d.name.GetOr(""), "");
      StartToolSent(out.events, model, text, tools, at, out.next, t);
      TracksNewTool(tools, at, out.toolOrder, out.toolBlocks, t, out.next);
      tools := tools + [t];
      out := out.(events := out.events + [BlockStart(out.next, StartTool(d.id.GetOr(""), d.name.GetOr("")))],
                  toolOrder := out.toolOrder + [index],
                  toolBlocks := out.toolBlocks[index := out.next], next := out.next + 1);
    }
    var more := d.arguments.GetOr("");
    TracksMoreJson(tools, at, out.toolOrder, out.toolBlocks, k, tools[k].(arguments := tools[k].arguments + more));
    if more != "" {
      JsonSent(out.events, model, text, tools, at, out.next, k, more);
      out := out.(events := out.events + [JsonDelta(out.toolBlocks[index], more)]);
    } else {
      NoJson(tools, k);
    }
  }

  method SendToolCalls(ds: seq<ToolDelta>, out0: Out, ghost model: string, ghost text: string, ghost tools0: seq<Tool>)
      returns (out: Out)
    requires Sent(out0, model, text, tools0)
    ensures Sent(out, model, text, AddDeltas(tools0, ds))
  {
    out := out0;
    AddNoDeltas(tools0, ds);
    for j := 0 to |ds|
      invariant Sent(out, model, text, AddDeltas(tools0, ds[..j]))
    {
      AddDeltasNext(tools0, ds, j);
      out := SendToolCall(ds[j], out, model, text, AddDeltas(tools0, ds[..j]));
    }
  }

  /** The stops at the end of the stream: the text block first, then the tools in the order they appeared. */
  function Stops(out: Out, k: nat): seq<Event>
    requires k <= |out.toolOrder| && forall index :: index in out.toolOrder ==> index in out.toolBlocks
  {
    if k == 0 then (if out.textAt.Some? then [BlockStop(out.textAt.value)] else [])
    else Stops(out, k - 1) + [BlockStop(out.toolBlocks[out.toolOrder[k - 1]])]
  }

  lemma OrderTracked(tools: seq<Tool>, at: Option<nat>, order: seq<int>, blockOf: map<int, nat>)
    requires Tracks(tools, at, order, blockOf)
    ensures forall index :: index in order ==> index in blockOf
    ensures forall k :: 0 <= k < |order| ==> order[k] in blockOf
  {
  }

  /** What is open once the text block, if any, is stopped. */
  lemma NothingStopped(out: Out, model: string, text: string, tools: seq<Tool>)
    requires Sent(out, model, text, tools)
    ensures var events := out.events + if out.textAt.Some? then [BlockStop(out.textAt.value)] else [];
            Receive(events) == Receiving(model, Receive(out.events).parts, Remaining(out.textAt, out.next, 0))
    ensures |out.toolOrder| == |tools| && Remaining(out.textAt, out.next, |tools|) == {}
  {
    hide Receive, Find, Tracks;
    assert |out.toolOrder| == |tools| by {
      Tracked(out, tools);
    }
    if out.textAt.Some? {
      assert Remaining(out.textAt, out.next, 0) == Upto(out.next) - {out.textAt.value};
      Received(out.events, BlockStop(out.textAt.value));
    } else {
      assert out.events + [] == out.events;
      assert Remaining(out.textAt, out.next, 0) == Upto(out.next);
    }
  }

  lemma Tracked(out: Out, tools: seq<Tool>)
    requires Tracks(tools, out.textAt, out.toolOrder, out.toolBlocks)
    ensures |out.toolOrder| == |tools|
  {
  }

  lemma StopNext(out: Out, events: seq<Event>, model: string, parts: seq<Part>, text: string, tools: seq<Tool>, k: nat)
    requires Sent(out, model, text, tools) && k < |out.toolOrder| && out.toolOrder[k] in out.toolBlocks
    requires Receive(events) == Receiving(model, parts, Remaining(out.textAt, out.next, k))
    ensures Receive(events + [BlockStop(out.toolBlocks[out.toolOrder[k]])])
            == Receiving(model, parts, Remaining(out.textAt, out.next, k + 1))
  {
    hide Receive, Find, Remaining;
    StopSent(tools, out.textAt, k);
    Received(events, BlockStop(out.toolBlocks[out.toolOrder[k]]));
  }

  method StopBlocks(out: Out, ghost model: string, ghost text: string, ghost tools: seq<Tool>)
      returns (events: seq<Event>)
    requires Sent(out, model, text, tools)
    ensures Receive(events) == Receive(out.events).(open := {})
    ensures forall index :: index in out.toolOrder ==> index in out.toolBlocks
    ensures events == out.events + Stops(out, |out.toolOrder|)
  {
    hide Receive, Step, Find, Tracks, Lays, Remaining, Upto;
    NothingStopped(out, model, text, tools);
    OrderTracked(tools, out.textAt, out.toolOrder, out.toolBlocks);
    events := out.events;
    ghost var parts := Receive(events).parts;
    if out.textAt.Some? {
      events := events + [BlockStop(out.textAt.value)];
    }
    assert events == out.events + Stops(out, 0);
    for k := 0 to |out.toolOrder|
      invariant Receive(events) == Receiving(model, parts, Remaining(out.textAt, out.next, k))
      invariant events == out.events + Stops(out, k)
    {
      StopNext(out, events, model, parts, text, tools, k);
      Assoc(out.events, Stops(out, k), [BlockStop(out.toolBlocks[out.toolOrder[k]])]);
      events := events + [BlockStop(out.toolBlocks[out.toolOrder[k]])];
    }
  }

  method CloseStream<J(!new)>(out: Out, finish: Option<string>, reported: Option<string>, usage: Usage, text: string,
                              model: string, stops: seq<string>, ghost tools: seq<Tool>, ghost codec: Codec<J>)
      returns (events: seq<Event>)
    requires codec.Valid()
    requires Sent(out, model, text, tools)
    ensures Receive(events).Finished? && out.events <= events
    ensures IsReplyTo(codec, AsResponse(Acc(text, tools, finish, reported, usage)), model, stops,
                      ReplyOf(codec, Receive(events)))
  {
    hide Receive, Step, Select, BlocksOf, ToolUses, Tracks, Upto, Lays;
    ghost var parts := Receive(out.events).parts;
    events := StopBlocks(out, model, text, tools);
    var reason, matched := StopOf(text, stops, finish, reported);
    var last := MessageDelta(reason, matched,
                             if "prompt_tokens" in usage then usage["prompt_tokens"] else 0,
                             if "completion_tokens" in usage then usage["completion_tokens"] else 0);
    ClosedBy(events, last);
    events := events + [last] + [MessageStop];
    LaysWholeContent(codec, parts, Acc(text, tools, finish, reported, usage), out.textAt);
  }

  /** The whole translation: every event is in place, and the client ends up with the reply that the
      message the chunks add up to has as a whole response (with the text moved to the front). */
  method TranslateStream<J(!new)>(lines: seq<Line>, model: string, stops: seq<string>, ghost codec: Codec<J>)
      returns (events: seq<Event>, ghost whole: Response)
    requires codec.Valid()
    ensures Receive(events).Finished?
    ensures AddsUpTo(Chunks(lines), whole)
    ensures IsReplyTo(codec, whole, model, stops, ReplyOf(codec, Receive(events)))
  {
    Received([], MessageStart(model));
    var out := Out([MessageStart(model)], None, [], map[], 0);
    var finish: Option<string>, reported: Option<string> := None, None;
    var usage: Usage := map[];
    var text := "";
    ghost var tools: seq<Tool> := [];
    var i := 0;
    while i < |lines|
      invariant 0 <= i <= |lines| && DoneAt(lines, i) == DoneAt(lines, 0)
      invariant Accumulate(DataBefore(lines, i)) == Acc(text, tools, finish, reported, usage)
      invariant Sent(out, model, text, tools)
    {
      var line := lines[i];
      if line.Done? {
        break;
      }
      AccumulateLine(lines, i);
      i := i + 1;
      if line.Other? || line.Malformed? {
        continue;
      }
      var delta := if line.chunk.choices == [] then EMPTY_DELTA else line.chunk.choices[0];
      if delta.finishReason.GetOr("") != "" {
        finish := delta.finishReason;
        reported := delta.stopReason;
      }
      if line.chunk.usage != map[] {
        usage := line.chunk.usage;
      }
      out := SendText(delta.content.GetOr(""), out, model, text, tools);
      text := text + delta.content.GetOr("");
      out := SendToolCalls(delta.toolCalls, out, model, text, tools);
      tools := AddDeltas(tools, delta.toolCalls);
    }
    assert i == DoneAt(lines, 0);
    AccumulatesTo(Chunks(lines));
    whole := AsResponse(Acc(text, tools, finish, reported, usage));
    events := CloseStream(out, finish, reported, usage, text, model, stops, tools, codec);
  }
}

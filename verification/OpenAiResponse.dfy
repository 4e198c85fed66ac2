/** The whole-response half of openai_compat.py: one OpenAI chat completion
    becomes one Anthropic message. */
module OpenAiResponse {
  import opened Wrappers

  /** JSON text <-> JSON value. `empty` is the empty object. */
  datatype Codec<!J(!new)> = Codec(dumps: J -> string, loads: string -> Option<J>, empty: J) {
    ghost predicate Valid() {
      && loads("{}") == Some(empty)
      && (forall j: J :: loads(dumps(j)) == Some(j))
      && (forall j: J :: dumps(j) != "")
    }
  }

  type Usage = map<string, int>

  // OpenAI side. None is a missing (or null) key.
  datatype ToolCall = ToolCall(id: Option<string>, name: Option<string>, arguments: Option<string>)
  datatype OMessage = OMessage(content: Option<string>, toolCalls: seq<ToolCall>)
  datatype Choice = Choice(message: OMessage, finishReason: Option<string>, stopReason: Option<string>)
  datatype Response = Response(choices: seq<Choice>, usage: Usage)

  // Anthropic side.
  datatype Block<J> = Text(text: string) | ToolUse(id: string, name: string, input: J)
  datatype Reply<J> = Reply(model: string, content: seq<Block<J>>, stopReason: string,
                            stopSequence: Option<string>, inputTokens: int, outputTokens: int)

  const EMPTY_CHOICE := Choice(OMessage(None, []), None, None)

  predicate EndsWith(text: string, suffix: string) {
    |suffix| <= |text| && text[|text| - |suffix|..] == suffix
  }

  predicate Hits(text: string, stop: string) {
    stop != "" && EndsWith(text, stop)
  }

  /** The stop string the text ran into: the backend's own report if it gives one,
      else the first listed string the text ends with. */
  ghost predicate IsDetectedStop(text: string, stops: seq<string>, reported: Option<string>, r: Option<string>) {
    if reported.GetOr("") != "" then r == reported
    else match r
      case None => forall k :: 0 <= k < |stops| ==> !Hits(text, stops[k])
      case Some(s) =>
        exists k :: 0 <= k < |stops| && stops[k] == s && Hits(text, s) &&
                    forall j :: 0 <= j < k ==> !Hits(text, stops[j])
  }

  lemma DetectedStopIsUnique(text: string, stops: seq<string>, reported: Option<string>, r: Option<string>,
                             r': Option<string>)
    requires IsDetectedStop(text, stops, reported, r) && IsDetectedStop(text, stops, reported, r')
    ensures r == r'
  {
    if reported.GetOr("") == "" && r.Some? && r'.Some? {
      var k :| 0 <= k < |stops| && stops[k] == r.value && Hits(text, r.value) &&
               forall j :: 0 <= j < k ==> !Hits(text, stops[j]);
      var k' :| 0 <= k' < |stops| && stops[k'] == r'.value && Hits(text, r'.value) &&
                forall j :: 0 <= j < k' ==> !Hits(text, stops[j]);
      assert k == k';
    }
  }

  method DetectStopSequence(text: string, stops: seq<string>, reported: Option<string>) returns (r: Option<string>)
    ensures IsDetectedStop(text, stops, reported, r)
  {
    if reported.Some? && reported.value != "" {
      return reported;
    }
    if text == "" || stops == [] {
      return None;
    }
    for k := 0 to |stops|
      invariant forall j :: 0 <= j < k ==> !Hits(text, stops[j])
    {
      if stops[k] != "" && EndsWith(text, stops[k]) {
        return Some(stops[k]);
      }
    }
    return None;
  }

  function FinishReason(finish: Option<string>): string {
    if finish == Some("length") then "max_tokens"
    else if finish == Some("tool_calls") then "tool_use"
    else if finish == Some("content_filter") then "refusal"
    else "end_turn"
  }

  /** What a reply must say about why generation stopped. Only a plain "stop" can be a stop sequence. */
  ghost predicate StoppedBy(text: string, stops: seq<string>, finish: Option<string>, reported: Option<string>,
                            reason: string, matched: Option<string>) {
    && (if finish == Some("stop") then IsDetectedStop(text, stops, reported, matched) else matched == None)
    && reason == if matched.Some? then "stop_sequence" else FinishReason(finish)
  }

  /** The table, and the one reason outside it: a plain stop that ran into a stop string. */
  lemma StopTable(text: string, stops: seq<string>, finish: Option<string>, reported: Option<string>, reason: string,
                  matched: Option<string>)
    requires StoppedBy(text, stops, finish, reported, reason, matched)
    ensures finish == Some("length") ==> reason == "max_tokens" && matched == None
    ensures finish == Some("tool_calls") ==> reason == "tool_use" && matched == None
    ensures finish == Some("content_filter") ==> reason == "refusal" && matched == None
    ensures finish == Some("stop") && reported.GetOr("") != "" ==> reason == "stop_sequence" && matched == reported
    ensures finish == Some("stop") && reported.GetOr("") == "" ==>
              (reason == "stop_sequence" <==>
               exists k :: 0 <= k < |stops| && stops[k] != "" && |stops[k]| <= |text|
                           && text[|text| - |stops[k]|..] == stops[k])
    ensures finish == Some("stop") && reason != "stop_sequence" ==> reason == "end_turn" && matched == None
    ensures finish !in [Some("stop"), Some("length"), Some("tool_calls"), Some("content_filter")] ==>
              reason == "end_turn" && matched == None
  {
    forall k | 0 <= k < |stops| ensures Hits(text, stops[k])
                                        <==> stops[k] != "" && |stops[k]| <= |text|
                                             && text[|text| - |stops[k]|..] == stops[k] {
    }
  }

  method StopOf(text: string, stops: seq<string>, finish: Option<string>, reported: Option<string>)
      returns (reason: string, matched: Option<string>)
    ensures StoppedBy(text, stops, finish, reported, reason, matched)
  {
    matched := None;
    if finish == Some("stop") {
      matched := DetectStopSequence(text, stops, reported);
    }
    reason := if matched.Some? then "stop_sequence" else FinishReason(finish);
  }

  /** Arguments that are missing, empty or not JSON read as the empty object. */
  function ParseInput<J(!new)>(codec: Codec<J>, arguments: Option<string>): J {
    var text := if arguments.GetOr("") == "" then "{}" else arguments.value;
    codec.loads(text).GetOr(codec.empty)
  }

  function ToolUseOf<J(!new)>(codec: Codec<J>, call: ToolCall): Block<J> {
    ToolUse(call.id.GetOr(""), call.name.GetOr(""), ParseInput(codec, call.arguments))
  }

  function ToolUses<J(!new)>(codec: Codec<J>, calls: seq<ToolCall>): (r: seq<Block<J>>)
    ensures |r| == |calls|
    ensures forall k :: 0 <= k < |calls| ==> r[k] == ToolUseOf(codec, calls[k])
  {
    seq(|calls|, k requires 0 <= k < |calls| => ToolUseOf(codec, calls[k]))
  }

  function TextBlocks<J>(text: string): seq<Block<J>> {
    if text == "" then [] else [Text(text)]
  }

  function FirstChoice(resp: Response): Choice {
    if resp.choices == [] then EMPTY_CHOICE else resp.choices[0]
  }

  /** The reply one whole response stands for: its text first, then its calls in order. */
  ghost predicate IsReplyTo<J(!new)>(codec: Codec<J>, resp: Response, model: string, stops: seq<string>,
                                     reply: Reply<J>) {
    var choice := FirstChoice(resp);
    var text := choice.message.content.GetOr("");
    && reply.model == model
    && reply.content == TextBlocks<J>(text) + ToolUses(codec, choice.message.toolCalls)
    && StoppedBy(text, stops, choice.finishReason, choice.stopReason, reply.stopReason, reply.stopSequence)
    && reply.inputTokens == (if "prompt_tokens" in resp.usage then resp.usage["prompt_tokens"] else 0)
    && reply.outputTokens == (if "completion_tokens" in resp.usage then resp.usage["completion_tokens"] else 0)
  }

  lemma ReplyIsUnique<J(!new)>(codec: Codec<J>, resp: Response, model: string, stops: seq<string>, a: Reply<J>,
                               b: Reply<J>)
    requires IsReplyTo(codec, resp, model, stops, a) && IsReplyTo(codec, resp, model, stops, b)
    ensures a == b
  {
    var choice := FirstChoice(resp);
    if choice.finishReason == Some("stop") {
      DetectedStopIsUnique(choice.message.content.GetOr(""), stops, choice.stopReason, a.stopSequence, b.stopSequence);
    }
  }

  /** What the reply holds: the text if there is any, then one tool use a call, with its input as parsed. */
  lemma ReplyHolds<J(!new)>(codec: Codec<J>, resp: Response, model: string, stops: seq<string>, reply: Reply<J>,
                            text: string, calls: seq<ToolCall>, k: nat)
    requires codec.Valid() && IsReplyTo(codec, resp, model, stops, reply) && resp.choices != []
    requires text == resp.choices[0].message.content.GetOr("") && calls == resp.choices[0].message.toolCalls
    ensures text != "" ==> |reply.content| == 1 + |calls| && reply.content[0] == Text(text)
    ensures text == "" ==> |reply.content| == |calls|
    ensures k < |calls| ==>
              var b := reply.content[|reply.content| - |calls| + k];
              && b.ToolUse? && b.id == calls[k].id.GetOr("") && b.name == calls[k].name.GetOr("")
              && (calls[k].arguments.GetOr("") == "" ==> b.input == codec.empty)
              && (forall j: J :: calls[k].arguments == Some(codec.dumps(j)) ==> b.input == j)
              && (forall a :: calls[k].arguments == Some(a) && codec.loads(a).None? ==> b.input == codec.empty)
  {
  }

  method ReadToolCalls<J(!new)>(codec: Codec<J>, calls: seq<ToolCall>) returns (uses: seq<Block<J>>)
    ensures uses == ToolUses(codec, calls)
  {
    uses := [];
    for k := 0 to |calls|
      invariant uses == ToolUses(codec, calls)[..k]
    {
      var call := calls[k];
      var arguments := if call.arguments.GetOr("") == "" then "{}" else call.arguments.value;
      var parsed := codec.loads(arguments);
      var input := if parsed.Some? then parsed.value else codec.empty;
      uses := uses + [ToolUse(call.id.GetOr(""), call.name.GetOr(""), input)];
    }
  }

  method OpenAiToAnthropic<J(!new)>(codec: Codec<J>, resp: Response, model: string, stops: seq<string>)
      returns (reply: Reply<J>)
    ensures IsReplyTo(codec, resp, model, stops, reply)
  {
    var choice := if resp.choices == [] then EMPTY_CHOICE else resp.choices[0];
    var message := choice.message;
    var content: seq<Block<J>> := [];
    var text := message.content.GetOr("");
    if text != "" {
      content := content + [Text(text)];
    }
    var uses := ReadToolCalls(codec, message.toolCalls);
    content := content + uses;
    var reason, matched := StopOf(text, stops, choice.finishReason, choice.stopReason);
    var inputTokens := if "prompt_tokens" in resp.usage then resp.usage["prompt_tokens"] else 0;
    var outputTokens := if "completion_tokens" in resp.usage then resp.usage["completion_tokens"] else 0;
    reply := Reply(model, content, reason, matched, inputTokens, outputTokens);
  }
}

/** ContextResolver from stages.py: system prompt, windowed history and the call's own input become one list. */
module ContextResolver {
  import opened Wrappers
  import opened Coercion
  import opened Seam

  datatype Input =
    | Text(s: string)
    | One(message: Message)
    | Items(items: seq<Item>)
    | Dict(messages: Option<seq<Item>>, query: Option<string>, input: Option<string>, prompt: Option<string>)
    | Unsupported

  function UserMessage(s: string): Message {
    Message("user", Str(s), None, Some(map[]), None, None)
  }

  /** The input's own messages; None is the configuration error. */
  function Normalized(raw: Input): Option<seq<Message>> {
    match raw
    case Text(s) => Some([UserMessage(s)])
    case One(m) => Some([m])
    case Items(items) =>
      var out := RunTo(items, |items|).out;
      if out != [] then Some(out) else None
    case Dict(messages, query, input, prompt) =>
      var out := if messages.Some? then RunTo(messages.value, |messages.value|).out else [];
      if out != [] then Some(out)
      else if query.Some? then Some([UserMessage(query.value)])
      else if input.Some? then Some([UserMessage(input.value)])
      else if prompt.Some? then Some([UserMessage(prompt.value)])
      else None
    case Unsupported => None
  }

  /** The position of the first user message, or the length. */
  function FirstUser(ms: seq<Message>): (k: nat)
    ensures k <= |ms|
    ensures k < |ms| ==> ms[k].role == "user"
    ensures forall j :: 0 <= j < k ==> ms[j].role != "user"
  {
    if ms == [] || ms[0].role == "user" then 0 else 1 + FirstUser(ms[1..])
  }

  /** The window of a coerced history that is sent along: its last messages, from a user message on. */
  function Window(out: seq<Message>, max: int): seq<Message> {
    if max <= 0 then [] else LastN(out, max)[FirstUser(LastN(out, max))..]
  }

  function SystemPart(prompt: string): seq<Message> {
    if prompt == "" then [] else [Message("system", Str(prompt), None, Some(map[]), None, None)]
  }

  method DropUntilValidStart(ms: seq<Message>) returns (r: seq<Message>)
    ensures r == ms[FirstUser(ms)..]
  {
    var start := 0;
    while start < |ms| && ms[start].role != "user"
      invariant 0 <= start <= FirstUser(ms)
    {
      start := start + 1;
    }
    r := ms[start..];
  }

  method Normalize(raw: Input) returns (r: Option<seq<Message>>)
    ensures r == Normalized(raw)
  {
    match raw
    case Text(s) => r := Some([UserMessage(s)]);
    case One(m) => r := Some([m]);
    case Unsupported => r := None;
    case Items(items) =>
      var out, _ := CoerceMessages(items);
      r := if out != [] then Some(out) else None;
    case Dict(messages, query, input, prompt) =>
      if messages.Some? {
        var out, _ := CoerceMessages(messages.value);
        if out != [] {
          return Some(out);
        }
      }
      r := if query.Some? then Some([UserMessage(query.value)])
           else if input.Some? then Some([UserMessage(input.value)])
           else if prompt.Some? then Some([UserMessage(prompt.value)])
           else None;
  }

  /** None is a history that cannot be read. */
  method History(history: Option<seq<Item>>, max: int) returns (kept: seq<Message>, trailing: bool)
    ensures var items := history.GetOr([]); var s := RunTo(items, |items|);
            kept == Window(s.out, max) && trailing == (kept != [] && s.pending)
  {
    if history.None? || max <= 0 {
      return [], false;
    }
    var out, flag := CoerceMessages(history.value);
    kept := DropUntilValidStart(LastN(out, max));
    trailing := kept != [] && flag;
  }

  method Resolve(prompt: string, history: Option<seq<Item>>, max: int, raw: Input) returns (r: Option<seq<Message>>)
    ensures var items := history.GetOr([]); var s := RunTo(items, |items|); var kept := Window(s.out, max);
            r == if Normalized(raw).None? then None
                 else Some(Append(SystemPart(prompt) + kept, Normalized(raw).value, kept != [] && s.pending))
  {
    var messages := SystemPart(prompt);
    var kept, trailing := History(history, max);
    messages := messages + kept;
    var own := Normalize(raw);
    if own.None? {
      return None;
    }
    messages := AppendMessages(messages, own.value, trailing);
    r := Some(messages);
  }

  lemma AppendAtEnd(head: seq<Message>, tail: seq<Message>, m: Message, q: bool)
    requires tail != []
    ensures AppendOne(head + tail, m, q) == head + AppendOne(tail, m, q)
  {
    assert (head + tail)[..|head + tail| - 1] == head + tail[..|tail| - 1];
  }

  lemma AppendAfter(front: seq<Message>, kept: seq<Message>, more: seq<Message>, p: bool)
    requires kept != []
    ensures Append(front + kept, more, p) == front + Append(kept, more, p)
  {
    hide MergeMessages;
    if more != [] {
      AppendAtEnd(front, kept, more[0], p);
    }
  }

  lemma AppendWindow(front: seq<Message>, out: seq<Message>, left: nat, more: seq<Message>, p: bool)
    requires left < |out|
    ensures var whole := Append(out, more, p);
            && left < |whole| && whole[left].role == out[left].role
            && Append(front + out[left..], more, p) == front + whole[left..]
  {
    hide MergeMessages;
    var kept := out[left..];
    assert out == out[..left] + kept;
    AppendAfter(out[..left], kept, more, p);
    AppendAfter(front, kept, more, p);
  }

  /** When some history is sent along, the resolved list is the system prompt and then the end, from a user message on,
      of one pass over history and input together exactly when the split does not fail. */
  lemma ResolvedIsOnePass(prompt: string, h: seq<Item>, i: seq<Item>, max: int)
    requires Window(RunTo(h, |h|).out, max) != []
    ensures var s, t, whole := RunTo(h, |h|), RunTo(i, |i|), RunTo(h + i, |h + i|).out;
            var kept := Window(s.out, max);
            var left := |s.out| - |kept|;
            && 0 <= left < |whole|
            && (Append(SystemPart(prompt) + kept, t.out, s.pending) == SystemPart(prompt) + whole[left..]
                <==> !SplitFails(s, i))
            && (!SplitFails(s, i) ==> whole[left].role == "user")
  {
    hide RunTo, Append, SplitFails, LosesReply, Window, SystemPart;
    SplitCoercion(h, i);
    assert |h + i| == |h| + |i|;
    var s, t, whole := RunTo(h, |h|), RunTo(i, |i|), RunTo(h + i, |h + i|).out;
    var kept := Window(s.out, max);
    var left := |s.out| - |kept|;
    WindowIsEnd(s.out, max);
    SplitPrefix(h, i, |i|, left);
    AppendWindow(SystemPart(prompt), s.out, left, t.out, s.pending);
    var joined := Append(s.out, t.out, s.pending);
    SamePrefix(s.out, t.out, s.pending, left);
    SameEnds(SystemPart(prompt), joined, whole, left);
  }

  lemma SamePrefix(out: seq<Message>, more: seq<Message>, p: bool, left: nat)
    requires left < |out|
    ensures left <= |Append(out, more, p)| && Append(out, more, p)[..left] == out[..left]
  {
    hide MergeMessages;
  }

  lemma SameEnds<T>(front: seq<T>, a: seq<T>, b: seq<T>, left: nat)
    requires left <= |a| && left <= |b| && a[..left] == b[..left]
    ensures front + a[left..] == front + b[left..] <==> a == b
  {
    assert a == a[..left] + a[left..] && b == b[..left] + b[left..];
    if front + a[left..] == front + b[left..] {
      assert a[left..] == (front + a[left..])[|front|..] == (front + b[left..])[|front|..] == b[left..];
    }
  }

  lemma EndOfEnd<T>(s: seq<T>, d: nat, k: nat)
    requires d + k <= |s|
    ensures s[d..][k..] == s[d + k..]
  {
  }

  lemma WindowAt(out: seq<Message>, max: int)
    requires max > 0
    ensures var last := LastN(out, max);
            last == out[|out| - |last|..] && Window(out, max) == out[|out| - |last| + FirstUser(last)..]
  {
    hide FirstUser;
    var last := LastN(out, max);
    EndOfEnd(out, |out| - |last|, FirstUser(last));
  }

  lemma WindowIsEnd(out: seq<Message>, max: int)
    ensures var kept := Window(out, max);
            |kept| <= |out| && kept == out[|out| - |kept|..] && (kept != [] ==> kept[0].role == "user")
  {
    if max > 0 {
      WindowAt(out, max);
      EndsFromUser(out, |out| - |LastN(out, max)|);
      hide *;
    }
  }

  lemma EndsFromUser(out: seq<Message>, d: nat)
    requires d <= |out|
    ensures var k := d + FirstUser(out[d..]);
            k <= |out| && out[k..] == out[|out| - |out[k..]|..] && (out[k..] != [] ==> out[k..][0].role == "user")
  {
    hide FirstUser;
    var k := d + FirstUser(out[d..]);
    assert k < |out| ==> out[d..][k - d] == out[k];
  }

  /** The window is the longest end of at most `max` messages that starts at a user message. */
  lemma WindowMeaning(out: seq<Message>, max: int)
    ensures var kept := Window(out, max);
            && |kept| <= |out| && kept == out[|out| - |kept|..]
            && (kept != [] ==> |kept| <= max && kept[0].role == "user")
            && (forall j :: 0 <= j < |out| - |kept| && |out| - max <= j ==> out[j].role != "user")
  {
    WindowIsEnd(out, max);
    if max > 0 {
      WindowAt(out, max);
      var last := LastN(out, max);
      hide Window, LastN, FirstUser;
      var d := |out| - |last|;
      assert forall j :: d <= j < d + FirstUser(last) ==> out[j] == last[j - d];
    }
  }

  /** The system prompt is one message with that text, or none if it is empty. */
  lemma SystemPartMeaning(prompt: string)
    ensures prompt == "" ==> SystemPart(prompt) == []
    ensures prompt != "" ==> var ms := SystemPart(prompt);
                             |ms| == 1 && ms[0].role == "system" && ms[0].content == Str(prompt)
                             && CallsIn(ms[0].toolCalls) == [] && ms[0].name == None && ms[0].toolCallId == None
  {
  }

  ghost predicate SaysAsUser(ms: Option<seq<Message>>, s: string) {
    && ms.Some? && |ms.value| == 1 && ms.value[0].role == "user" && ms.value[0].content == Str(s)
    && CallsIn(ms.value[0].toolCalls) == [] && ms.value[0].name == None && ms.value[0].toolCallId == None
  }

  /** A text is one user message and a message is itself; a list is what it coerces to. A dict is its messages if they
      come to anything, else its query, else its input, else its prompt. Everything else is the configuration error. */
  lemma NormalizedMeaning(raw: Input)
    ensures raw.Text? ==> SaysAsUser(Normalized(raw), raw.s)
    ensures raw.One? ==> Normalized(raw) == Some([raw.message])
    ensures raw.Items? ==> var out := RunTo(raw.items, |raw.items|).out;
                           Normalized(raw) == if out == [] then None else Some(out)
    ensures raw.Dict? ==>
              var items := raw.messages.GetOr([]);
              var out := RunTo(items, |items|).out;
              if out != [] then Normalized(raw) == Some(out)
              else if raw.query.Some? then SaysAsUser(Normalized(raw), raw.query.value)
              else if raw.input.Some? then SaysAsUser(Normalized(raw), raw.input.value)
              else if raw.prompt.Some? then SaysAsUser(Normalized(raw), raw.prompt.value)
              else Normalized(raw) == None
    ensures raw.Unsupported? ==> Normalized(raw) == None
  {
    hide Step;
    assert RunTo([], 0).out == [];
  }
}

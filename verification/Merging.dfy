/** What merging makes of a group of messages, said of the messages alone; and how saved messages come back
    (stages.py, types.py). */
module Merging {
  import opened Wrappers
  import opened Coercion

  // ----- contents

  function ContentsAt(ms: seq<Message>): seq<Content> {
    seq(|ms|, k requires 0 <= k < |ms| => ms[k].content)
  }

  /** The strings among the contents, in order. */
  function Texts(cs: seq<Content>): seq<string> {
    if cs == [] then [] else Texts(cs[..|cs| - 1]) + if cs[|cs| - 1].Str? then [cs[|cs| - 1].s] else []
  }

  /** Texts with a blank line between them. */
  function Paragraphs(texts: seq<string>): string {
    if texts == [] then ""
    else if |texts| == 1 then texts[0]
    else Paragraphs(texts[..|texts| - 1]) + "\n\n" + texts[|texts| - 1]
  }

  /** All the blocks, in order, each string a text block of its own. */
  function BlocksIn(cs: seq<Content>): seq<Block> {
    if cs == [] then []
    else BlocksIn(cs[..|cs| - 1]) +
         match cs[|cs| - 1]
         case NoContent => []
         case Str(s) => [TextBlock(s)]
         case List(blocks) => blocks
  }

  /** The position of the first block list, or the number of contents. */
  function FirstList(cs: seq<Content>): (f: nat)
    ensures f <= |cs|
    ensures f < |cs| ==> cs[f].List?
    ensures forall k :: 0 <= k < f ==> !cs[k].List?
  {
    if cs == [] || cs[0].List? then 0 else 1 + FirstList(cs[1..])
  }

  /** The texts before the first block list, if there are any, as one block. */
  function Lead(texts: seq<string>): seq<Block> {
    if texts == [] then [] else [TextBlock(Paragraphs(texts))]
  }

  /** What the texts before the first list and everything from there on come to. */
  function Together(texts: seq<string>, tail: seq<Content>): Content {
    if tail != [] then List(Lead(texts) + BlocksIn(tail))
    else if texts == [] then NoContent else Str(Paragraphs(texts))
  }

  /** Without a block list, the texts joined by blank lines. Otherwise those before the first list as one block, and
      then the blocks of that list and of everything after it. */
  ghost predicate Holds(cs: seq<Content>, c: Content) {
    c == Together(Texts(cs[..FirstList(cs)]), cs[FirstList(cs)..])
  }

  lemma FirstListIs(cs: seq<Content>, f: nat)
    requires f <= |cs| && (f < |cs| ==> cs[f].List?)
    requires forall k :: 0 <= k < f ==> !cs[k].List?
    ensures FirstList(cs) == f
  {
  }

  lemma OneHolds(c: Content)
    ensures Holds([c], c)
  {
    assert [c][..0] == [] && [c][..1] == [c] && [c][0..] == [c] && [c][1..] == [];
    FirstListIs([c], if c.List? then 0 else 1);
    assert Texts([]) == [] && BlocksIn([]) == [];
    assert Texts([c]) == if c.Str? then [c.s] else [];
    assert c.List? ==> BlocksIn([c]) == c.blocks;
  }

  lemma TextsNext(texts: seq<string>, s: string)
    ensures Paragraphs(texts + [s]) == if texts == [] then s else Paragraphs(texts) + "\n\n" + s
  {
    assert (texts + [s])[..|texts|] == texts;
  }

  lemma TextContentNext(texts: seq<string>, d: Content)
    requires !d.List?
    ensures MergeContent(Together(texts, []), d) == Together(texts + if d.Str? then [d.s] else [], [])
  {
    if d.Str? {
      TextsNext(texts, d.s);
    } else {
      assert texts + [] == texts;
    }
  }

  lemma ListContentNext(texts: seq<string>, tail: seq<Content>, d: Content)
    requires tail != [] || d.List?
    ensures MergeContent(Together(texts, tail), d) == Together(texts, tail + [d])
  {
    Init(tail, d);
    hide Paragraphs;
    if tail == [] {
      assert BlocksIn([]) == [] && BlocksIn(tail + [d]) == d.blocks;
    } else {
      assert BlocksIn(tail + [d]) == BlocksIn(tail) + AsBlocks(d);
      Assoc(Lead(texts), BlocksIn(tail), AsBlocks(d));
    }
  }

  lemma HoldsNext(cs: seq<Content>, c: Content, d: Content)
    requires Holds(cs, c)
    ensures Holds(cs + [d], MergeContent(c, d))
  {
    var all, f := cs + [d], FirstList(cs);
    hide MergeContent, BlocksIn, Paragraphs, Lead;
    if f == |cs| && !d.List? {
      FirstListIs(all, |all|);
      hide FirstList;
      assert all[..|all|] == all && cs[..|cs|] == cs && all[|all|..] == [] && cs[|cs|..] == [];
      Init(cs, d);
      TextContentNext(Texts(cs), d);
    } else {
      FirstListIs(all, f);
      hide FirstList, Texts;
      assert all[..f] == cs[..f] && all[f..] == cs[f..] + [d];
      ListContentNext(Texts(cs[..f]), cs[f..], d);
    }
  }

  // ----- the other fields

  /** The position of the last message whose metadata has the key, or -1. */
  function LastWith(ms: seq<Message>, key: string): (k: int)
    ensures -1 <= k < |ms|
    ensures k >= 0 ==> key in ms[k].metadata.GetOr(map[])
    ensures forall j :: k < j < |ms| ==> key !in ms[j].metadata.GetOr(map[])
  {
    if ms == [] then -1
    else if key in ms[|ms| - 1].metadata.GetOr(map[]) then |ms| - 1
    else LastWith(ms[..|ms| - 1], key)
  }

  /** The position of the first message with a tool_call_id that is not empty, or the number of messages. */
  function FirstAnswering(ms: seq<Message>): (k: nat)
    ensures k <= |ms|
    ensures k < |ms| ==> ms[k].toolCallId.GetOr("") != ""
    ensures forall j :: 0 <= j < k ==> ms[j].toolCallId.GetOr("") == ""
  {
    if ms == [] || ms[0].toolCallId.GetOr("") != "" then 0 else 1 + FirstAnswering(ms[1..])
  }

  lemma FirstAnsweringIs(ms: seq<Message>, f: nat)
    requires f <= |ms| && (f < |ms| ==> ms[f].toolCallId.GetOr("") != "")
    requires forall j :: 0 <= j < f ==> ms[j].toolCallId.GetOr("") == ""
    ensures FirstAnswering(ms) == f
  {
  }

  /** Every key some message has, with the value of the last that has it. */
  ghost predicate LatestOf(ms: seq<Message>, metadata: map<string, string>) {
    && (forall key :: key in metadata <==> LastWith(ms, key) >= 0)
    && (forall key :: key in metadata ==> metadata[key] == ms[LastWith(ms, key)].metadata.GetOr(map[])[key])
  }

  /** The name they agree on, the metadata with later messages winning, the first id that is there, and every call. */
  ghost predicate FieldsOf(ms: seq<Message>, m: Message)
    requires ms != []
  {
    && m.role == ms[0].role
    && m.name == (if forall k :: 0 <= k < |ms| ==> ms[k].name == ms[0].name then ms[0].name else None)
    && (|ms| == 1 ==> m.metadata == ms[0].metadata && m.toolCalls == ms[0].toolCalls)
    && (|ms| > 1 ==> m.metadata.Some? && m.toolCalls == if AllCalls(ms) == [] then None else Some(AllCalls(ms)))
    && CallsIn(m.toolCalls) == AllCalls(ms)
    && LatestOf(ms, m.metadata.GetOr(map[]))
    && m.toolCallId == ms[if FirstAnswering(ms) < |ms| then FirstAnswering(ms) else |ms| - 1].toolCallId
  }

  ghost predicate IsMergeOf(ms: seq<Message>, m: Message)
    requires ms != []
  {
    Holds(ContentsAt(ms), m.content) && FieldsOf(ms, m)
  }

  lemma OneIsMerge(m: Message)
    ensures IsMergeOf([m], m)
  {
    OneHolds(m.content);
    assert ContentsAt([m]) == [m.content];
    assert [m][..0] == [] && AllCalls([]) == [];
    FirstAnsweringIs([m], if m.toolCallId.GetOr("") != "" then 0 else 1);
    hide Holds;
  }

  lemma IdNext(ms: seq<Message>, m: Message, b: Message)
    requires ms != []
    requires m.toolCallId == ms[if FirstAnswering(ms) < |ms| then FirstAnswering(ms) else |ms| - 1].toolCallId
    ensures var all := ms + [b];
            Or(m.toolCallId, b.toolCallId)
            == all[if FirstAnswering(all) < |all| then FirstAnswering(all) else |all| - 1].toolCallId
  {
    var f := FirstAnswering(ms);
    FirstAnsweringIs(ms + [b], if f < |ms| || b.toolCallId.GetOr("") != "" then f else f + 1);
  }

  lemma NameNext(ms: seq<Message>, m: Message, b: Message)
    requires ms != []
    requires m.name == if forall k :: 0 <= k < |ms| ==> ms[k].name == ms[0].name then ms[0].name else None
    ensures var all := ms + [b];
            (if m.name == b.name then m.name else None)
            == if forall k :: 0 <= k < |all| ==> all[k].name == all[0].name then all[0].name else None
  {
    var all := ms + [b];
    if forall k :: 0 <= k < |ms| ==> ms[k].name == ms[0].name {
      assert all[|ms|] == b;
    } else {
      var k :| 0 <= k < |ms| && ms[k].name != ms[0].name;
      assert all[k].name != all[0].name;
    }
  }

  lemma LastWithNext(ms: seq<Message>, b: Message)
    ensures forall key :: LastWith(ms + [b], key) == if key in b.metadata.GetOr(map[]) then |ms| else LastWith(ms, key)
  {
    Init(ms, b);
  }

  lemma LatestNext(ms: seq<Message>, metadata: map<string, string>, b: Message)
    requires LatestOf(ms, metadata)
    ensures LatestOf(ms + [b], metadata + b.metadata.GetOr(map[]))
  {
    LastWithNext(ms, b);
    hide LastWith;
  }

  lemma FieldsNext(ms: seq<Message>, m: Message, b: Message)
    requires ms != [] && FieldsOf(ms, m)
    ensures FieldsOf(ms + [b], MergeMessages(m, b))
  {
    Init(ms, b);
    IdNext(ms, m, b);
    NameNext(ms, m, b);
    hide FirstAnswering, MergeContent, Or;
    LatestNext(ms, m.metadata.GetOr(map[]), b);
    hide LatestOf;
    assert AllCalls(ms + [b]) == AllCalls(ms) + CallsIn(b.toolCalls);
    hide AllCalls;
  }

  lemma MergeNext(ms: seq<Message>, m: Message, b: Message)
    requires ms != [] && IsMergeOf(ms, m)
    ensures IsMergeOf(ms + [b], MergeMessages(m, b))
  {
    FieldsNext(ms, m, b);
    assert ContentsAt(ms + [b]) == ContentsAt(ms) + [b.content];
    hide FieldsOf, Holds;
    HoldsNext(ContentsAt(ms), m.content, b.content);
  }

  /** Two messages merged at a seam. */
  lemma TwoMerged(a: Message, b: Message)
    ensures IsMergeOf([a, b], MergeMessages(a, b))
  {
    hide IsMergeOf;
    OneIsMerge(a);
    MergeNext([a], a, b);
    assert [a] + [b] == [a, b];
  }

  /** A message is merged at a seam that owes it, into a last message of the same role, user or assistant; anywhere else
      it stands for itself. */
  lemma SeamMeaning(dest: seq<Message>, m: Message, pending: bool)
    ensures var out := AppendOne(dest, m, pending);
            if pending && dest != [] && Last(dest).role == m.role && (m.role == "user" || m.role == "assistant")
            then |out| == |dest| && out[..|dest| - 1] == dest[..|dest| - 1] && IsMergeOf([Last(dest), m], Last(out))
            else out == dest + [m]
  {
    hide IsMergeOf, MergeMessages;
    if dest != [] {
      TwoMerged(Last(dest), m);
    }
  }

  lemma {:induction false} GroupMerged(items: seq<Item>, g: seq<nat>)
    requires Members(items, g)
    ensures IsMergeOf(MessagesAt(items, g), Merged(items, g))
  {
    hide IsMergeOf, MergeMessages, Survives;
    if |g| == 1 {
      OneIsMerge(Coerced(items, g[0]));
      assert MessagesAt(items, g) == [Coerced(items, g[0])];
    } else {
      var front := g[..|g| - 1];
      GroupMerged(items, front);
      MergeNext(MessagesAt(items, front), Merged(items, front), Coerced(items, Last(g)));
    }
  }

  /** Nothing is lost and nothing made up: each message of the output holds exactly the contents and fields of the
      surviving messages in its group. */
  lemma ContentsConserved(items: seq<Item>, groups: seq<seq<nat>>, j: nat)
    requires Grouping(items, |items|, groups) && MergedOut(items, groups, RunTo(items, |items|).out)
    requires j < |groups|
    ensures Members(items, groups[j])
    ensures IsMergeOf(MessagesAt(items, groups[j]), RunTo(items, |items|).out[j])
  {
    GroupAt(items, groups, RunTo(items, |items|).out, j);
    GroupMerged(items, groups[j]);
    hide IsMergeOf;
  }

  /** The description fits one message only. */
  lemma MergeIsUnique(ms: seq<Message>, a: Message, b: Message)
    requires ms != [] && IsMergeOf(ms, a) && IsMergeOf(ms, b)
    ensures a == b
  {
    hide FirstList, Texts, BlocksIn, AllCalls, LastWith, FirstAnswering;
    assert a.metadata.GetOr(map[]) == b.metadata.GetOr(map[]);
  }

  // ----- saved and read back

  function NonEmpty(s: Option<string>): Option<string> {
    if s.GetOr("") == "" then None else s
  }

  /** Message.to_dict. */
  function ToDict(m: Message): Item {
    var content := match m.content
      case NoContent => RawNull
      case Str(s) => RawStr(s)
      case List(blocks) => RawList(blocks);
    DictItem(Some(m.role), Some(content), if CallsIn(m.toolCalls) == [] then None else Some(m.toolCalls),
             NonEmpty(m.name), NonEmpty(m.toolCallId))
  }

  predicate Known(role: string) {
    role == "system" || role == "user" || role == "assistant" || role == "tool"
  }

  /** What a message is once saved: metadata is not, and an empty name, id or list of calls is as good as none. */
  function Saved(m: Message): Message {
    m.(name := NonEmpty(m.name), toolCallId := NonEmpty(m.toolCallId), metadata := Some(map[]),
       toolCalls := if CallsIn(m.toolCalls) == [] then None else m.toolCalls)
  }

  /** A message read back from its dict is the saved one; a turn with nothing in it is dropped either way; and null
      content anywhere else but on a live tool-call turn reads as a text. */
  lemma SavedMessageReadsBack(m: Message)
    requires Known(m.role)
    ensures ItemRole(ToDict(m)) == ItemRole(MessageItem(m))
    ensures IsDroppedTurn(ToDict(m)) <==> IsDroppedTurn(MessageItem(m))
    ensures IsDroppedTurn(MessageItem(m)) <==> CoerceMessage(ToDict(m)).None?
    ensures IsDroppedTurn(MessageItem(m)) <==> CoerceMessage(MessageItem(m)).None?
    ensures !m.content.NoContent? || (m.role == "assistant" && CallsIn(m.toolCalls) != []) ==>
              CoerceMessage(ToDict(m)) == Some(Saved(m)) && CoerceMessage(MessageItem(m)) == Some(m)
    ensures m.content.NoContent? && m.role != "assistant" ==>
              CoerceMessage(ToDict(m)) == Some(Saved(m).(content := Str("None")))
  {
  }

  ghost predicate Storable(m: Message) {
    Known(m.role) && m == Saved(m) && (m.content.NoContent? ==> m.role == "assistant")
  }

  lemma StepsAlike(s: State, m: Message)
    requires Storable(m)
    ensures Step(s, ToDict(m)) == Step(s, MessageItem(m))
  {
    SavedMessageReadsBack(m);
    hide ToDict, CoerceMessage, IsDroppedTurn, ItemRole, AppendOne;
  }

  function Messages(ms: seq<Message>): (r: seq<Item>)
    ensures |r| == |ms| && forall k :: 0 <= k < |ms| ==> r[k] == MessageItem(ms[k])
  {
    seq(|ms|, k requires 0 <= k < |ms| => MessageItem(ms[k]))
  }

  function Dicts(ms: seq<Message>): (r: seq<Item>)
    ensures |r| == |ms| && forall k :: 0 <= k < |ms| ==> r[k] == ToDict(ms[k])
  {
    seq(|ms|, k requires 0 <= k < |ms| => ToDict(ms[k]))
  }

  /** A history of messages coerces alike from the messages and from the dicts they were saved as. */
  lemma {:induction false} SavedHistoryCoercesAlike(ms: seq<Message>, n: nat)
    requires n <= |ms| && forall m :: m in ms ==> Storable(m)
    ensures RunTo(Dicts(ms), n) == RunTo(Messages(ms), n)
  {
    hide Step, ToDict, Storable, Messages, Dicts;
    if n > 0 {
      SavedHistoryCoercesAlike(ms, n - 1);
      StepsAlike(RunTo(Messages(ms), n - 1), ms[n - 1]);
    }
  }

  /** Which dicts are kept, and what is kept of them, whatever wrote them. */
  lemma DictKept(item: Item)
    requires item.DictItem?
    ensures var role, m := item.role.GetOr("user"), CoerceMessage(item);
            var live := role == "assistant" && CallsIn(item.toolCalls.GetOr(None)) != [];
            var empty := item.content.GetOr(RawNull) == RawNull;
            && (m.Some? <==> (item.content.Some? || item.toolCalls.Some?) && Known(role)
                             && (role == "assistant" && empty ==> live))
            && (m.Some? ==>
                  && m.value.role == role && m.value.name == item.name && m.value.toolCallId == item.toolCallId
                  && m.value.toolCalls == item.toolCalls.GetOr(None) && m.value.metadata == Some(map[])
                  && (m.value.content.NoContent? <==> empty && live)
                  && (empty && !live ==> m.value.content == Str("None"))
                  && (forall s :: item.content == Some(RawStr(s)) || item.content == Some(RawOther(s)) ==>
                        m.value.content == Str(s))
                  && (forall bs :: item.content == Some(RawList(bs)) ==> m.value.content == List(bs)))
            && (IsDroppedTurn(item) <==> role == "assistant" && item.content == Some(RawNull)
                                         && CallsIn(item.toolCalls.GetOr(None)) == [])
  {
  }
}

/** Message coercion from stages.py: raw history and input items become messages, stale tool-call turns
    and the replies to them disappear, and the seam a disappearance leaves is merged. */
module Coercion {
  import opened Wrappers

  type Call = string
  datatype Block = TextBlock(text: string) | RawBlock(json: string)
  datatype Content = NoContent | Str(s: string) | List(blocks: seq<Block>)
  datatype Message = Message(role: string, content: Content, name: Option<string>,
                             metadata: Option<map<string, string>>,
                             toolCallId: Option<string>, toolCalls: Option<seq<Call>>)

  // A dict item keeps apart a missing key (None) and a key that holds null.
  datatype RawContent = RawNull | RawStr(s: string) | RawList(blocks: seq<Block>) | RawOther(shown: string)
  datatype Item =
    | MessageItem(message: Message)
    | DictItem(role: Option<string>, content: Option<RawContent>, toolCalls: Option<Option<seq<Call>>>,
               name: Option<string>, toolCallId: Option<string>)
    | OtherItem

  function CallsIn(calls: Option<seq<Call>>): seq<Call> {
    calls.GetOr([])
  }

  function CoerceMessage(item: Item): Option<Message> {
    match item
    case MessageItem(m) =>
      if m.content.NoContent? && m.role == "assistant" && CallsIn(m.toolCalls) == [] then None else Some(m)
    case DictItem(r, content, calls, name, callId) =>
      var role, raw, toolCalls := r.GetOr("user"), content.GetOr(RawNull), calls.GetOr(None);
      var live := role == "assistant" && CallsIn(toolCalls) != [];
      if content.None? && calls.None? then None
      else if role !in ["system", "user", "assistant", "tool"] then None
      else if raw.RawNull? && role == "assistant" && !live then None
      else
        var c := match raw
          case RawNull => if live then NoContent else Str("None")
          case RawStr(s) => Str(s)
          case RawList(bs) => List(bs)
          case RawOther(shown) => Str(shown);
        Some(Message(role, c, name, Some(map[]), callId, toolCalls))
    case OtherItem => None
  }

  function ItemRole(item: Item): Option<string> {
    match item
    case MessageItem(m) => Some(m.role)
    case DictItem(r, _, _, _, _) => Some(r.GetOr("user"))
    case OtherItem => None
  }

  predicate IsTool(item: Item) {
    ItemRole(item) == Some("tool")
  }

  predicate IsDroppedTurn(item: Item) {
    match item
    case MessageItem(m) => m.role == "assistant" && m.content.NoContent? && CallsIn(m.toolCalls) == []
    case DictItem(r, content, calls, _, _) =>
      r.GetOr("user") == "assistant" && content == Some(RawNull) && CallsIn(calls.GetOr(None)) == []
    case OtherItem => false
  }

  // ----- merging

  function AsBlocks(c: Content): seq<Block> {
    match c
    case NoContent => []
    case Str(s) => [TextBlock(s)]
    case List(bs) => bs
  }

  function MergeContent(a: Content, b: Content): Content {
    if a.NoContent? then b
    else if b.NoContent? then a
    else if a.Str? && b.Str? then Str(a.s + "\n\n" + b.s)
    else List(AsBlocks(a) + AsBlocks(b))
  }

  function Or(a: Option<string>, b: Option<string>): Option<string> {
    if a.GetOr("") != "" then a else b
  }

  function MergeMessages(a: Message, b: Message): (m: Message)
    ensures m.role == a.role
  {
    var calls := CallsIn(a.toolCalls) + CallsIn(b.toolCalls);
    Message(a.role, MergeContent(a.content, b.content), if a.name == b.name then a.name else None,
            Some(a.metadata.GetOr(map[]) + b.metadata.GetOr(map[])),
            Or(a.toolCallId, b.toolCallId), if calls == [] then None else Some(calls))
  }

  predicate MergeableRole(role: string) {
    role == "user" || role == "assistant"
  }

  predicate MergesAt(dest: seq<Message>, m: Message, pending: bool) {
    pending && dest != [] && dest[|dest| - 1].role == m.role && MergeableRole(m.role)
  }

  function AppendOne(dest: seq<Message>, m: Message, pending: bool): (r: seq<Message>)
    ensures r != []
  {
    if MergesAt(dest, m, pending) then dest[..|dest| - 1] + [MergeMessages(dest[|dest| - 1], m)] else dest + [m]
  }

  function Append(dest: seq<Message>, more: seq<Message>, pending: bool): seq<Message> {
    if more == [] then dest else AppendOne(dest, more[0], pending) + more[1..]
  }

  /** Content merging is associative except where two strings would fuse on one side of a list only. */
  lemma ContentAssociativity(a: Content, b: Content, c: Content)
    ensures MergeContent(MergeContent(a, b), c) == MergeContent(a, MergeContent(b, c)) <==>
            !(a.Str? && b.Str? && c.List?) && !(a.List? && b.Str? && c.Str?)
  {
    if a.Str? && b.Str? && c.Str? {
      assert (a.s + "\n\n" + b.s) + "\n\n" + c.s == a.s + "\n\n" + (b.s + "\n\n" + c.s);
    } else if !a.NoContent? && !b.NoContent? && !c.NoContent? {
      assert (AsBlocks(a) + AsBlocks(b)) + AsBlocks(c) == AsBlocks(a) + (AsBlocks(b) + AsBlocks(c));
      var left, right := MergeContent(MergeContent(a, b), c), MergeContent(a, MergeContent(b, c));
      if a.Str? && b.Str? && c.List? {
        assert |left.blocks| == 1 + |c.blocks| && |right.blocks| == 2 + |c.blocks|;
      } else if a.List? && b.Str? && c.Str? {
        assert |left.blocks| == |a.blocks| + 2 && |right.blocks| == |a.blocks| + 1;
      }
    }
  }

  /** So is merging whole messages: every other field merges associatively. */
  lemma MergeAssociativity(a: Message, b: Message, c: Message)
    ensures MergeMessages(MergeMessages(a, b), c) == MergeMessages(a, MergeMessages(b, c)) <==>
            !(a.content.Str? && b.content.Str? && c.content.List?)
                && !(a.content.List? && b.content.Str? && c.content.Str?)
  {
    ContentAssociativity(a.content, b.content, c.content);
    var x, y, z := CallsIn(a.toolCalls), CallsIn(b.toolCalls), CallsIn(c.toolCalls);
    assert (x + y) + z == x + (y + z);
    var m, n, o := a.metadata.GetOr(map[]), b.metadata.GetOr(map[]), c.metadata.GetOr(map[]);
    assert (m + n) + o == m + (n + o);
  }

  // ----- the automaton

  datatype State = State(out: seq<Message>, skip: bool, pending: bool)

  function Step(s: State, item: Item): State {
    if s.skip && IsTool(item) then s
    else if IsDroppedTurn(item) then State(s.out, true, true)
    else match CoerceMessage(item)
      case None => State(s.out, false, s.pending)
      case Some(m) => State(AppendOne(s.out, m, s.pending), false, false)
  }

  /** What coercing the first n items amounts to. */
  function RunTo(items: seq<Item>, n: nat): State
    requires n <= |items|
  {
    if n == 0 then State([], false, false) else Step(RunTo(items, n - 1), items[n - 1])
  }

  method AppendMessages(dest: seq<Message>, more: seq<Message>, pending: bool) returns (out: seq<Message>)
    ensures out == Append(dest, more, pending)
    ensures |more| == 1 ==> out == AppendOne(dest, more[0], pending)
  {
    out := dest;
    if pending && dest != [] && more != [] && dest[|dest| - 1].role == more[0].role
       && dest[|dest| - 1].role in ["user", "assistant"] {
      out := out[|out| - 1 := MergeMessages(out[|out| - 1], more[0])];
      out := out + more[1..];
    } else {
      out := out + more;
    }
  }

  method CoerceMessages(items: seq<Item>) returns (out: seq<Message>, trailing: bool)
    ensures out == RunTo(items, |items|).out
    ensures trailing == RunTo(items, |items|).pending
  {
    out := [];
    var skip, pending := false, false;
    for i := 0 to |items|
      invariant RunTo(items, i) == State(out, skip, pending)
    {
      var item := items[i];
      if skip {
        if ItemRole(item) == Some("tool") {
          continue;
        }
        skip := false;
      }
      if IsDroppedTurn(item) {
        skip := true;
        pending := true;
        continue;
      }
      var message := CoerceMessage(item);
      if message.None? {
        continue;
      }
      out := AppendMessages(out, [message.value], pending);
      pending := false;
    }
    trailing := pending;
  }

  // ----- what it means: who survives, and who is merged with whom

  /** Position n lies in the run of tool replies right after a dropped turn. */
  predicate AfterDrop(items: seq<Item>, n: nat)
    requires n <= |items|
  {
    n > 0 && (IsDroppedTurn(items[n - 1]) || (IsTool(items[n - 1]) && AfterDrop(items, n - 1)))
  }

  lemma {:induction false} AfterDropMeaning(items: seq<Item>, n: nat)
    requires n <= |items|
    ensures AfterDrop(items, n) <==>
            exists k :: 0 <= k < n && IsDroppedTurn(items[k]) && forall j :: k < j < n ==> IsTool(items[j])
  {
    if n > 0 {
      AfterDropMeaning(items, n - 1);
      if !IsDroppedTurn(items[n - 1]) && AfterDrop(items, n) {
        var k :| 0 <= k < n - 1 && IsDroppedTurn(items[k]) && forall j :: k < j < n - 1 ==> IsTool(items[j]);
        assert forall j :: k < j < n ==> IsTool(items[j]);
      }
    }
  }

  predicate Survives(items: seq<Item>, i: nat)
    requires i < |items|
  {
    CoerceMessage(items[i]).Some? && !IsDroppedTurn(items[i]) && !(IsTool(items[i]) && AfterDrop(items, i))
  }

  /** The positions below n that survive, in order. */
  function Survivors(items: seq<Item>, n: nat): (r: seq<nat>)
    requires n <= |items|
    ensures forall k :: 0 <= k < |r| ==> r[k] < n && Survives(items, r[k])
  {
    if n == 0 then [] else Survivors(items, n - 1) + (if Survives(items, n - 1) then [n - 1] else [])
  }

  /** Some turn strictly between i and j was dropped. */
  predicate DropBetween(items: seq<Item>, i: int, j: nat)
    requires j <= |items|
  {
    j > 0 && i < j - 1 && (IsDroppedTurn(items[j - 1]) || DropBetween(items, i, j - 1))
  }

  lemma {:induction false} DropBetweenMeaning(items: seq<Item>, i: int, j: nat)
    requires -1 <= i && j <= |items|
    ensures DropBetween(items, i, j) <==> exists k :: i < k < j && IsDroppedTurn(items[k])
  {
    if j > 0 && i < j - 1 {
      DropBetweenMeaning(items, i, j - 1);
    }
  }

  function Coerced(items: seq<Item>, i: nat): Message
    requires i < |items| && Survives(items, i)
  {
    CoerceMessage(items[i]).value
  }

  function MessagesAt(items: seq<Item>, g: seq<nat>): (r: seq<Message>)
    requires forall k :: 0 <= k < |g| ==> g[k] < |items| && Survives(items, g[k])
    ensures |r| == |g| && forall k :: 0 <= k < |g| ==> r[k] == Coerced(items, g[k])
  {
    if g == [] then [] else MessagesAt(items, g[..|g| - 1]) + [Coerced(items, g[|g| - 1])]
  }

  /** Both positions hold the same speaker, and one whose messages may be merged. */
  predicate SameTurn(items: seq<Item>, i: nat, j: nat)
    requires i < |items| && Survives(items, i)
    requires j < |items| && Survives(items, j)
  {
    Coerced(items, i).role == Coerced(items, j).role && MergeableRole(Coerced(items, i).role)
  }

  function Last<T>(s: seq<T>): T
    requires s != []
  {
    s[|s| - 1]
  }

  ghost predicate Members(items: seq<Item>, g: seq<nat>) {
    g != [] && forall k :: 0 <= k < |g| ==> g[k] < |items| && Survives(items, g[k])
  }

  /** The message a group of survivors is merged into, left to right. */
  ghost function Merged(items: seq<Item>, g: seq<nat>): Message
    requires Members(items, g)
  {
    if |g| == 1 then Coerced(items, g[0]) else MergeMessages(Merged(items, g[..|g| - 1]), Coerced(items, Last(g)))
  }

  /** Within a group, neighbours are one speaker's and a turn was dropped between them. */
  ghost predicate Fused(items: seq<Item>, g: seq<nat>) {
    && Members(items, g)
    && (|g| > 1 ==>
          var front, i, j := g[..|g| - 1], g[|g| - 2], g[|g| - 1];
          Fused(items, front) && DropBetween(items, i, j) && SameTurn(items, i, j))
  }

  /** Between groups, the neighbours are not one speaker's, or no turn was dropped between them. */
  ghost predicate Apart(items: seq<Item>, g: seq<nat>, h: seq<nat>)
    requires Members(items, g) && Members(items, h)
  {
    !(DropBetween(items, Last(g), h[0]) && SameTurn(items, Last(g), h[0]))
  }

  /** Every group is fused, and neighbouring groups stay apart. */
  ghost predicate Cut(items: seq<Item>, groups: seq<seq<nat>>) {
    groups != [] ==>
      var front, g := groups[..|groups| - 1], Last(groups);
      Fused(items, g) && Cut(items, front) && (front != [] ==> Apart(items, Last(front), g))
  }

  /** The groups cut the survivors among the first n items exactly where they stay apart. */
  ghost predicate Grouping(items: seq<Item>, n: nat, groups: seq<seq<nat>>)
    requires n <= |items|
  {
    Flatten(groups) == Survivors(items, n) && Cut(items, groups)
  }

  /** Each message of the output is its group merged. */
  ghost predicate MergedOut(items: seq<Item>, groups: seq<seq<nat>>, out: seq<Message>)
    requires Cut(items, groups)
  {
    && |out| == |groups|
    && (groups != [] ==>
          Last(out) == Merged(items, Last(groups)) && MergedOut(items, groups[..|groups| - 1], out[..|out| - 1]))
  }

  // ----- proof: the automaton's flags, then one lemma per way a survivor is appended

  function LastSurvivor(items: seq<Item>, n: nat): int
    requires n <= |items|
  {
    if Survivors(items, n) == [] then -1 else Last(Survivors(items, n))
  }

  lemma {:induction false} SkipFlag(items: seq<Item>, n: nat)
    requires n <= |items|
    ensures RunTo(items, n).skip == AfterDrop(items, n)
  {
    if n > 0 {
      SkipFlag(items, n - 1);
    }
  }

  lemma {:induction false} Flags(items: seq<Item>, n: nat)
    requires n <= |items|
    ensures RunTo(items, n).skip == AfterDrop(items, n)
    ensures RunTo(items, n).pending == DropBetween(items, LastSurvivor(items, n), n)
  {
    if n > 0 {
      Flags(items, n - 1);
    }
  }

  lemma NewGroup(items: seq<Item>, n: nat, groups: seq<seq<nat>>, out: seq<Message>)
    requires n < |items| && Survives(items, n)
    requires Grouping(items, n, groups) && MergedOut(items, groups, out)
    requires groups != [] ==> Apart(items, Last(groups), [n])
    ensures Grouping(items, n + 1, groups + [[n]]) && MergedOut(items, groups + [[n]], out + [Coerced(items, n)])
  {
    assert (groups + [[n]])[..|groups|] == groups;
    assert (out + [Coerced(items, n)])[..|out|] == out;
  }

  function Joined(groups: seq<seq<nat>>, n: nat): seq<seq<nat>>
    requires groups != []
  {
    groups[..|groups| - 1] + [Last(groups) + [n]]
  }

  lemma JoinFlattens(groups: seq<seq<nat>>, n: nat)
    requires groups != []
    ensures Flatten(Joined(groups, n)) == Flatten(groups) + [n]
  {
    var front, g := groups[..|groups| - 1], Last(groups);
    assert Joined(groups, n)[..|front|] == front;
    assert Flatten(front) + (g + [n]) == (Flatten(front) + g) + [n];
  }

  lemma JoinFuses(items: seq<Item>, g: seq<nat>, n: nat)
    requires n < |items| && Survives(items, n) && Fused(items, g)
    requires DropBetween(items, Last(g), n) && SameTurn(items, Last(g), n)
    ensures Fused(items, g + [n])
    ensures Merged(items, g + [n]) == MergeMessages(Merged(items, g), Coerced(items, n))
  {
    assert (g + [n])[..|g|] == g;
  }

  lemma JoinCuts(items: seq<Item>, groups: seq<seq<nat>>, n: nat)
    requires n < |items| && Survives(items, n) && groups != [] && Cut(items, groups)
    requires DropBetween(items, Last(Last(groups)), n) && SameTurn(items, Last(Last(groups)), n)
    ensures Cut(items, Joined(groups, n))
  {
    var front, g := groups[..|groups| - 1], Last(groups);
    JoinFuses(items, g, n);
    hide Fused, Survives, DropBetween, SameTurn;
    assert Joined(groups, n)[..|front|] == front;
    assert (g + [n])[0] == g[0];
  }

  lemma JoinMerges(items: seq<Item>, groups: seq<seq<nat>>, n: nat, out: seq<Message>)
    requires n < |items| && Survives(items, n) && groups != []
    requires Cut(items, groups) && Cut(items, Joined(groups, n)) && MergedOut(items, groups, out)
    requires Fused(items, Last(groups)) && DropBetween(items, Last(Last(groups)), n)
             && SameTurn(items, Last(Last(groups)), n)
    ensures MergedOut(items, Joined(groups, n), out[..|out| - 1] + [MergeMessages(Last(out), Coerced(items, n))])
  {
    var front, m := groups[..|groups| - 1], MergeMessages(Last(out), Coerced(items, n));
    JoinFuses(items, Last(groups), n);
    hide Fused, Survives, DropBetween, SameTurn, MergeMessages, Cut, Merged;
    assert Joined(groups, n)[..|front|] == front;
    assert (out[..|out| - 1] + [m])[..|out| - 1] == out[..|out| - 1];
  }

  lemma JoinGroup(items: seq<Item>, n: nat, groups: seq<seq<nat>>, out: seq<Message>)
    requires n < |items| && Survives(items, n) && groups != []
    requires Grouping(items, n, groups) && MergedOut(items, groups, out)
    requires DropBetween(items, Last(Last(groups)), n) && SameTurn(items, Last(Last(groups)), n)
    ensures Grouping(items, n + 1, Joined(groups, n))
    ensures MergedOut(items, Joined(groups, n), out[..|out| - 1] + [MergeMessages(Last(out), Coerced(items, n))])
  {
    assert Survivors(items, n + 1) == Survivors(items, n) + [n];
    assert Fused(items, Last(groups));
    hide Fused, Survives, DropBetween, SameTurn, MergeMessages, MergedOut, Merged, Flatten, Survivors, Joined;
    JoinFlattens(groups, n);
    JoinCuts(items, groups, n);
    hide Cut;
    JoinMerges(items, groups, n, out);
  }

  lemma {:induction false} FusedRole(items: seq<Item>, g: seq<nat>)
    requires Fused(items, g)
    ensures Merged(items, g).role == Coerced(items, Last(g)).role == Coerced(items, g[0]).role
  {
    if |g| > 1 {
      var h := g[..|g| - 1];
      FusedRole(items, h);
    }
  }

  lemma FlattenLast(groups: seq<seq<nat>>)
    requires groups != [] && Last(groups) != []
    ensures Flatten(groups) != [] && Last(Flatten(groups)) == Last(Last(groups))
  {
  }

  /** How item n's message, if any, reaches the output. */
  lemma RunNext(items: seq<Item>, n: nat)
    requires n < |items|
    ensures var out := RunTo(items, n).out;
            RunTo(items, n + 1).out ==
              if !Survives(items, n) then out
              else if MergesAt(out, Coerced(items, n), DropBetween(items, LastSurvivor(items, n), n))
              then out[..|out| - 1] + [MergeMessages(Last(out), Coerced(items, n))]
              else out + [Coerced(items, n)]
  {
    Flags(items, n);
  }

  lemma GroupNext(items: seq<Item>, n: nat, groups: seq<seq<nat>>, out: seq<Message>) returns (next: seq<seq<nat>>)
    requires n < |items| && Survives(items, n)
    requires Grouping(items, n, groups) && MergedOut(items, groups, out)
    ensures Grouping(items, n + 1, next)
    ensures MergedOut(items, next,
              if MergesAt(out, Coerced(items, n), DropBetween(items, LastSurvivor(items, n), n))
              then out[..|out| - 1] + [MergeMessages(Last(out), Coerced(items, n))] else out + [Coerced(items, n)])
  {
    if groups != [] {
      FlattenLast(groups);
      FusedRole(items, Last(groups));
      if MergesAt(out, Coerced(items, n), DropBetween(items, LastSurvivor(items, n), n)) {
        JoinGroup(items, n, groups, out);
        return Joined(groups, n);
      }
    }
    NewGroup(items, n, groups, out);
    next := groups + [[n]];
  }

  lemma NoGroups(items: seq<Item>)
    ensures Grouping(items, 0, []) && MergedOut(items, [], RunTo(items, 0).out)
  {
  }

  /** The groups of the first n items, and that they give the output so far. */
  ghost predicate Explains(items: seq<Item>, n: nat, groups: seq<seq<nat>>)
    requires n <= |items|
  {
    Grouping(items, n, groups) && MergedOut(items, groups, RunTo(items, n).out)
  }

  lemma LostItem(items: seq<Item>, n: nat, groups: seq<seq<nat>>)
    requires n < |items| && !Survives(items, n) && Explains(items, n, groups)
    ensures Explains(items, n + 1, groups)
  {
    hide Survives, Step, Cut, MergedOut, MergesAt, DropBetween;
    assert Survivors(items, n + 1) == Survivors(items, n);
    hide Survivors;
    RunNext(items, n);
  }

  lemma KeptItem(items: seq<Item>, n: nat, groups: seq<seq<nat>>) returns (next: seq<seq<nat>>)
    requires n < |items| && Survives(items, n) && Explains(items, n, groups)
    ensures Explains(items, n + 1, next)
  {
    hide Grouping, MergedOut, Survives, Step, MergesAt, MergeMessages, DropBetween, Coerced, LastSurvivor, RunTo, Cut;
    RunNext(items, n);
    next := GroupNext(items, n, groups, RunTo(items, n).out);
  }

  lemma {:induction false} GroupsExplain(items: seq<Item>, n: nat) returns (groups: seq<seq<nat>>)
    requires n <= |items|
    ensures Explains(items, n, groups)
  {
    hide Explains, Survives;
    groups := [];
    if n == 0 {
      NothingToExplain(items);
    } else {
      groups := GroupsExplain(items, n - 1);
      if Survives(items, n - 1) {
        groups := KeptItem(items, n - 1, groups);
      } else {
        LostItem(items, n - 1, groups);
      }
    }
  }

  lemma NothingToExplain(items: seq<Item>)
    ensures Explains(items, 0, [])
  {
    NoGroups(items);
  }

  /** Coercing is exactly this grouping of the survivors; the flag says a drop came after the last of them. */
  lemma CoercionGroups(items: seq<Item>, n: nat) returns (groups: seq<seq<nat>>)
    requires n <= |items|
    ensures Grouping(items, n, groups) && MergedOut(items, groups, RunTo(items, n).out)
    ensures RunTo(items, n).pending == DropBetween(items, LastSurvivor(items, n), n)
  {
    hide Grouping, MergedOut, DropBetween, LastSurvivor, RunTo, Cut;
    Flags(items, n);
    groups := GroupsExplain(items, n);
  }

  // ----- consequences

  lemma {:induction false} GroupAt(items: seq<Item>, groups: seq<seq<nat>>, out: seq<Message>, j: nat)
    requires Cut(items, groups) && MergedOut(items, groups, out)
    requires j < |groups|
    ensures Fused(items, groups[j]) && out[j] == Merged(items, groups[j])
    ensures j + 1 < |groups| ==> Fused(items, groups[j + 1]) && Apart(items, groups[j], groups[j + 1])
    ensures j + 1 < |groups| ==> out[j + 1] == Merged(items, groups[j + 1])
  {
    var front := groups[..|groups| - 1];
    if j < |front| {
      GroupAt(items, front, out[..|out| - 1], j);
      if j + 1 == |front| {
        assert Last(front) == groups[j];
      }
    }
  }

  /** Two neighbouring user (or assistant) messages in the output never straddle a dropped turn. */
  lemma SameRoleMeansNoDrop(items: seq<Item>, groups: seq<seq<nat>>, j: nat)
    requires Grouping(items, |items|, groups) && MergedOut(items, groups, RunTo(items, |items|).out)
    requires j + 1 < |groups|
    requires var out := RunTo(items, |items|).out; out[j].role == out[j + 1].role && MergeableRole(out[j].role)
    ensures Members(items, groups[j]) && Members(items, groups[j + 1])
    ensures !exists k :: Last(groups[j]) < k < groups[j + 1][0] && IsDroppedTurn(items[k])
  {
    GroupAt(items, groups, RunTo(items, |items|).out, j);
    FusedRole(items, groups[j]);
    FusedRole(items, groups[j + 1]);
    DropBetweenMeaning(items, Last(groups[j]), groups[j + 1][0]);
  }

  /** Without a dropped turn nothing is merged: the survivors' messages come out one for one. */
  lemma {:induction false} NoDropNoMerge(items: seq<Item>, n: nat)
    requires n <= |items|
    requires forall k :: 0 <= k < n ==> !IsDroppedTurn(items[k])
    ensures RunTo(items, n).out == MessagesAt(items, Survivors(items, n))
    ensures !RunTo(items, n).pending
  {
    NoDropNothingOwed(items, n);
    if n > 0 {
      NoDropNoMerge(items, n - 1);
      NoDropNothingOwed(items, n - 1);
      hide *;
      NotOwedNext(items, n - 1);
      SurvivorNext(items, n - 1);
    }
  }

  lemma NotOwedNext(items: seq<Item>, n: nat)
    requires n < |items| && !DropBetween(items, LastSurvivor(items, n), n)
    ensures RunTo(items, n + 1).out == RunTo(items, n).out + if Survives(items, n) then [Coerced(items, n)] else []
  {
    hide Step, Survives, MergeMessages, DropBetween, LastSurvivor;
    RunNext(items, n);
  }

  lemma SurvivorNext(items: seq<Item>, n: nat)
    requires n < |items|
    ensures MessagesAt(items, Survivors(items, n + 1))
            == MessagesAt(items, Survivors(items, n)) + if Survives(items, n) then [Coerced(items, n)] else []
  {
    hide Survives;
    if Survives(items, n) {
      Init(Survivors(items, n), n);
    } else {
      assert Survivors(items, n + 1) == Survivors(items, n);
    }
  }

  lemma NoDropNothingOwed(items: seq<Item>, n: nat)
    requires n <= |items|
    requires forall k :: 0 <= k < n ==> !IsDroppedTurn(items[k])
    ensures !RunTo(items, n).pending && !DropBetween(items, LastSurvivor(items, n), n)
  {
    Flags(items, n);
    assert LastSurvivor(items, n) >= -1;
    hide Survivors, LastSurvivor, RunTo;
    DropBetweenMeaning(items, LastSurvivor(items, n), n);
  }

  /** A well-formed tool reply is left out exactly when only tool replies separate it from a dropped turn. */
  lemma {:induction false} ToolRepliesVanish(items: seq<Item>, n: nat, i: nat)
    requires i < n <= |items|
    requires IsTool(items[i]) && CoerceMessage(items[i]).Some?
    ensures i in Survivors(items, n) <==>
            !exists k :: 0 <= k < i && IsDroppedTurn(items[k]) && forall j :: k < j < i ==> IsTool(items[j])
  {
    AfterDropMeaning(items, i);
    InSurvivors(items, n, i);
  }

  lemma {:induction false} InSurvivors(items: seq<Item>, n: nat, i: nat)
    requires i < n <= |items|
    ensures i in Survivors(items, n) <==> Survives(items, i)
  {
    if i < n - 1 {
      InSurvivors(items, n - 1, i);
    } else if !Survives(items, i) {
      assert forall k :: 0 <= k < |Survivors(items, n)| ==> Survives(items, Survivors(items, n)[k]);
    }
  }

  function AllCalls(ms: seq<Message>): seq<Call> {
    if ms == [] then [] else AllCalls(ms[..|ms| - 1]) + CallsIn(ms[|ms| - 1].toolCalls)
  }

  function SurvivingCalls(items: seq<Item>, n: nat): seq<Call>
    requires n <= |items|
  {
    if n == 0 then []
    else
      var front := SurvivingCalls(items, n - 1);
      if Survives(items, n - 1) then front + CallsIn(Coerced(items, n - 1).toolCalls) else front
  }

  /** Merging loses no live tool call and keeps their order. */
  lemma {:induction false} CallsConserved(items: seq<Item>, n: nat)
    requires n <= |items|
    ensures AllCalls(RunTo(items, n).out) == SurvivingCalls(items, n)
  {
    hide Step, AllCalls, AfterDrop, CoerceMessage, IsDroppedTurn, ItemRole;
    if n > 0 {
      CallsConserved(items, n - 1);
      SkipFlag(items, n - 1);
      StepKeepsCalls(RunTo(items, n - 1), items[n - 1]);
    } else {
      NoCalls();
    }
  }

  lemma NoCalls()
    ensures AllCalls([]) == []
  {
  }

  lemma StepKeepsCalls(s: State, item: Item)
    ensures AllCalls(Step(s, item).out) == AllCalls(s.out) +
              (if (s.skip && IsTool(item)) || IsDroppedTurn(item) || CoerceMessage(item).None? then []
               else CallsIn(CoerceMessage(item).value.toolCalls))
  {
    if CoerceMessage(item).Some? {
      AppendKeepsCalls(s.out, CoerceMessage(item).value, s.pending);
    }
  }

  lemma AppendKeepsCalls(out: seq<Message>, m: Message, pending: bool)
    ensures AllCalls(AppendOne(out, m, pending)) == AllCalls(out) + CallsIn(m.toolCalls)
  {
    var all := AppendOne(out, m, pending);
    if MergesAt(out, m, pending) {
      var front, last := out[..|out| - 1], out[|out| - 1];
      assert all == front + [MergeMessages(last, m)];
      assert all[..|front|] == front;
      assert AllCalls(front) + (CallsIn(last.toolCalls) + CallsIn(m.toolCalls))
             == (AllCalls(front) + CallsIn(last.toolCalls)) + CallsIn(m.toolCalls);
    } else {
      assert all[..|out|] == out;
    }
  }
}

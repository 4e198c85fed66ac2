/** The seam between history and input: when coercing the two apart and joining them is one pass over both
    (stages.py). */
module Seam {
  import opened Wrappers
  import opened Coercion

  /** The first message of the list that survives is the one at position f. */
  predicate Opens(items: seq<Item>, f: nat) {
    f < |items| && Survives(items, f) && Survivors(items, f) == []
  }

  /** The next message of the same speaker, a turn dropped in between, and nothing surviving there. */
  predicate Follows(items: seq<Item>, i: nat, j: nat)
    requires i < |items| && Survives(items, i)
    requires j < |items| && Survives(items, j)
  {
    LastSurvivor(items, j) == i && DropBetween(items, i, j) && SameTurn(items, i, j)
  }

  function Newest(f: nat, g: seq<nat>): nat {
    if g == [] then f else g[|g| - 1]
  }

  /** The positions below n that are merged into the message at position f: an unbroken chain from there. */
  function Followers(items: seq<Item>, f: nat, n: nat): (r: seq<nat>)
    requires n <= |items| && Opens(items, f)
    ensures forall k :: 0 <= k < |r| ==> r[k] < n && Survives(items, r[k])
  {
    if n <= f + 1 then []
    else
      var g := Followers(items, f, n - 1);
      if Survives(items, n - 1) && Follows(items, Newest(f, g), n - 1) then g + [n - 1] else g
  }

  function LeftFold(m: Message, more: seq<Message>): (r: Message)
    ensures r.role == m.role
  {
    if more == [] then m else MergeMessages(LeftFold(m, more[..|more| - 1]), more[|more| - 1])
  }

  // ----- folding contents from the left, and when that is merging with a fold

  function FoldContent(c: Content, more: seq<Content>): Content {
    if more == [] then c else MergeContent(FoldContent(c, more[..|more| - 1]), more[|more| - 1])
  }

  /** The contents that are there. */
  function Solid(cs: seq<Content>): (r: seq<Content>)
    ensures forall k :: 0 <= k < |r| ==> !r[k].NoContent?
  {
    if cs == [] then []
    else Solid(cs[..|cs| - 1]) + if cs[|cs| - 1].NoContent? then [] else [cs[|cs| - 1]]
  }

  predicate AnyList(cs: seq<Content>) {
    cs != [] && (cs[|cs| - 1].List? || AnyList(cs[..|cs| - 1]))
  }

  /** Strings that fuse on one side of the seam and not on the other: a string and a string before a list,
      or two strings after a list. */
  predicate Fuses(d: Content, xs: seq<Content>) {
    && |xs| >= 2
    && xs[0].Str?
    && ((d.Str? && AnyList(xs)) || (d.List? && xs[1].Str?))
  }

  lemma {:induction false} FoldIsString(xs: seq<Content>)
    requires forall k :: 0 <= k < |xs| ==> !xs[k].NoContent?
    ensures FoldContent(NoContent, xs).NoContent? <==> xs == []
    ensures FoldContent(NoContent, xs).Str? <==> xs != [] && !AnyList(xs)
    ensures xs != [] && !AnyList(xs) ==> xs[0].Str? && (|xs| > 1 ==> xs[1].Str?)
  {
    if xs != [] {
      FoldIsString(xs[..|xs| - 1]);
    }
  }

  /** How the two ways of folding differ, once they do: by a block. */
  ghost predicate BlockApart(d: Content, left: Content, right: Content) {
    && left.List? && right.List?
    && (d.Str? ==> |left.blocks| < |right.blocks|)
    && (d.List? ==> |left.blocks| > |right.blocks|)
  }

  lemma StaysApart(d: Content, left: Content, f: Content, z: Content)
    requires d.Str? || d.List?
    requires !f.NoContent? && !z.NoContent? && (d.Str? ==> f.List?)
    requires BlockApart(d, left, MergeContent(d, f))
    ensures BlockApart(d, MergeContent(left, z), MergeContent(d, MergeContent(f, z)))
  {
  }

  lemma ComesApart(d: Content, f: Content, z: Content)
    requires (d.Str? && f.Str? && z.List?) || (d.List? && f.Str? && z.Str?)
    ensures BlockApart(d, MergeContent(MergeContent(d, f), z), MergeContent(d, MergeContent(f, z)))
  {
  }

  lemma {:induction false} FoldsAgree(d: Content, xs: seq<Content>)
    requires forall k :: 0 <= k < |xs| ==> !xs[k].NoContent?
    ensures !Fuses(d, xs) ==> FoldContent(d, xs) == MergeContent(d, FoldContent(NoContent, xs))
    ensures Fuses(d, xs) ==> BlockApart(d, FoldContent(d, xs), MergeContent(d, FoldContent(NoContent, xs)))
  {
    if xs != [] {
      var ys, z := xs[..|xs| - 1], xs[|xs| - 1];
      FoldsAgree(d, ys);
      FoldIsString(ys);
      var f := FoldContent(NoContent, ys);
      hide FoldContent, MergeContent;
      if Fuses(d, ys) {
        StaysApart(d, FoldContent(d, ys), f, z);
      } else {
        ContentAssociativity(d, f, z);
        if Fuses(d, xs) {
          ComesApart(d, f, z);
        }
      }
    }
  }

  lemma {:induction false} FoldSolid(d: Content, xs: seq<Content>)
    ensures FoldContent(d, Solid(xs)) == FoldContent(d, xs)
  {
    if xs != [] {
      var n := |xs| - 1;
      FoldSolid(d, xs[..n]);
      hide MergeContent;
      if !xs[n].NoContent? {
        Init(Solid(xs[..n]), xs[n]);
      } else {
        assert Solid(xs) == Solid(xs[..n]);
        MergeNothing(FoldContent(d, xs[..n]));
      }
    }
  }

  lemma MergeNothing(c: Content)
    ensures MergeContent(c, NoContent) == c == MergeContent(NoContent, c)
  {
  }

  lemma {:induction false} FoldHead(d: Content, x: Content, more: seq<Content>)
    ensures FoldContent(d, [x] + more) == FoldContent(MergeContent(d, x), more)
  {
    hide MergeContent;
    if more == [] {
      assert [x] + more == [x] && [x][..0] == [];
    } else {
      FoldHead(d, x, more[..|more| - 1]);
      Front([x], more);
    }
  }

  /** Merging d into the fold from the left is merging it with the fold, unless contents fuse. */
  lemma FoldsAgreeIff(d: Content, x: Content, more: seq<Content>)
    ensures FoldContent(MergeContent(d, x), more) == MergeContent(d, FoldContent(x, more))
            <==> !Fuses(d, Solid([x] + more))
  {
    var all := [x] + more;
    FoldHead(d, x, more);
    FoldHead(NoContent, x, more);
    MergeNothing(x);
    FoldSolid(d, all);
    FoldSolid(NoContent, all);
    FoldsAgree(d, Solid(all));
    hide FoldContent, MergeContent, Solid;
  }

  // ----- the same for whole messages: everything but the content merges associatively

  function ContentsOf(ms: seq<Message>): seq<Content> {
    if ms == [] then [] else ContentsOf(ms[..|ms| - 1]) + [ms[|ms| - 1].content]
  }

  function Bare(m: Message): Message {
    m.(content := NoContent)
  }

  lemma {:induction false} FoldedContent(m: Message, more: seq<Message>)
    ensures LeftFold(m, more).content == FoldContent(m.content, ContentsOf(more))
  {
    if more != [] {
      FoldedContent(m, more[..|more| - 1]);
      Init(ContentsOf(more[..|more| - 1]), more[|more| - 1].content);
      hide MergeContent;
    }
  }

  lemma BareMerge(a: Message, b: Message)
    ensures Bare(MergeMessages(a, b)) == MergeMessages(Bare(a), Bare(b))
  {
  }

  lemma {:induction false} BareFold(d: Message, x: Message, more: seq<Message>)
    ensures Bare(LeftFold(MergeMessages(d, x), more)) == Bare(MergeMessages(d, LeftFold(x, more)))
  {
    hide MergeMessages;
    if more != [] {
      var front, z := more[..|more| - 1], more[|more| - 1];
      BareFold(d, x, front);
      BareMerge(LeftFold(MergeMessages(d, x), front), z);
      BareMerge(d, LeftFold(x, front));
      BareMerge(d, MergeMessages(LeftFold(x, front), z));
      BareMerge(LeftFold(x, front), z);
      MergeAssociativity(Bare(d), Bare(LeftFold(x, front)), Bare(z));
    }
  }

  lemma ContentOfMerge(a: Message, b: Message)
    ensures MergeMessages(a, b).content == MergeContent(a.content, b.content)
  {
  }

  lemma SameIfParts(a: Message, b: Message)
    ensures a == b <==> Bare(a) == Bare(b) && a.content == b.content
  {
  }

  lemma MessageFoldsAgree(d: Message, x: Message, more: seq<Message>)
    ensures LeftFold(MergeMessages(d, x), more) == MergeMessages(d, LeftFold(x, more))
            <==> !Fuses(d.content, Solid([x.content] + ContentsOf(more)))
  {
    var left, right := LeftFold(MergeMessages(d, x), more), MergeMessages(d, LeftFold(x, more));
    BareFold(d, x, more);
    SameIfParts(left, right);
    FoldedContent(MergeMessages(d, x), more);
    FoldedContent(x, more);
    ContentOfMerge(d, x);
    ContentOfMerge(d, LeftFold(x, more));
    FoldsAgreeIff(d.content, x.content, ContentsOf(more));
    hide LeftFold, MergeMessages, MergeContent, FoldContent, Fuses, Solid, ContentsOf, Bare;
  }

  // ----- the two runs side by side

  /** The step appends a message to the output, or merges it into the last one. */
  predicate Reaches(t: State, item: Item) {
    !(t.skip && IsTool(item)) && !IsDroppedTurn(item) && CoerceMessage(item).Some?
  }

  predicate Merges(t: State, item: Item) {
    Reaches(t, item) && MergesAt(t.out, CoerceMessage(item).value, t.pending)
  }

  /** A state whose output is t's with other messages in front, and another first message of the same role. */
  function Beside(front: seq<Message>, x: Message, t: State): State
    requires t.out != []
  {
    State(front + [x] + t.out[1..], t.skip, t.pending)
  }

  lemma BesideLast(front: seq<Message>, x: Message, t: State)
    requires t.out != [] && x.role == t.out[0].role
    ensures var out := Beside(front, x, t).out;
            Last(out) == (if |t.out| == 1 then x else Last(t.out)) && Last(out).role == Last(t.out).role
  {
  }

  lemma BesideAppend(front: seq<Message>, x: Message, t: State, m: Message)
    requires t.out != []
    ensures Beside(front, x, t).out + [m] == front + [x] + (t.out + [m])[1..]
  {
  }

  lemma BesideReplace(front: seq<Message>, x: Message, t: State, m: Message)
    requires |t.out| > 1
    ensures var out := Beside(front, x, t).out;
            out[..|out| - 1] + [m] == front + [x] + (t.out[..|t.out| - 1] + [m])[1..]
  {
  }

  lemma BesideFirst(front: seq<Message>, x: Message, t: State, m: Message)
    requires |t.out| == 1
    ensures var out := Beside(front, x, t).out;
            out[..|out| - 1] + [m] == front + [m] + (t.out[..|t.out| - 1] + [m])[1..]
  {
  }

  /** Appending goes alike on both. */
  lemma AppendBeside(front: seq<Message>, x: Message, t: State, m: Message)
    requires t.out != [] && x.role == t.out[0].role
    ensures var both, joined := AppendOne(t.out, m, t.pending),
            if |t.out| == 1 && MergesAt(t.out, m, t.pending) then MergeMessages(x, m) else x;
            AppendOne(Beside(front, x, t).out, m, t.pending) == front + [joined] + both[1..]
  {
    BesideLast(front, x, t);
    var out := Beside(front, x, t).out;
    if !MergesAt(t.out, m, t.pending) {
      BesideAppend(front, x, t, m);
    } else if |t.out| == 1 {
      BesideFirst(front, x, t, MergeMessages(x, m));
    } else {
      BesideReplace(front, x, t, MergeMessages(Last(t.out), m));
    }
    hide MergeMessages, Beside;
  }

  /** Both take the step alike. */
  lemma StepBeside(front: seq<Message>, x: Message, t: State, item: Item)
    requires t.out != [] && x.role == t.out[0].role
    ensures Step(t, item).out != []
    ensures var joined := if |t.out| == 1 && Merges(t, item) then MergeMessages(x, CoerceMessage(item).value) else x;
            Step(Beside(front, x, t), item) == Beside(front, joined, Step(t, item))
  {
    hide MergeMessages, CoerceMessage, IsDroppedTurn, AppendOne, MergesAt;
    if Reaches(t, item) {
      AppendBeside(front, x, t, CoerceMessage(item).value);
    }
  }

  /** What the step does to the first message, and to the number of messages. */
  lemma StepFirst(t: State, item: Item)
    requires t.out != []
    ensures |Step(t, item).out| == |t.out| + if Reaches(t, item) && !Merges(t, item) then 1 else 0
    ensures Step(t, item).out[0] == if |t.out| == 1
            && Merges(t, item) then MergeMessages(t.out[0], CoerceMessage(item).value)
                                    else t.out[0]
  {
    hide MergeMessages, CoerceMessage, IsDroppedTurn;
  }

  lemma {:induction false} FollowersRole(items: seq<Item>, f: nat, n: nat)
    requires f < n <= |items| && Opens(items, f)
    ensures Newest(f, Followers(items, f, n)) < n && Survives(items, Newest(f, Followers(items, f, n)))
    ensures Coerced(items, Newest(f, Followers(items, f, n))).role == Coerced(items, f).role
  {
    hide CoerceMessage, DropBetween, IsDroppedTurn, LastSurvivor;
    if n > f + 1 {
      FollowersRole(items, f, n - 1);
    } else {
      assert Survives(items, f);
    }
  }

  /** While the input's output is one message, that is its first with its followers, and the last of them is
      the last survivor. */
  ghost predicate OpeningIs(items: seq<Item>, f: nat, n: nat, t: State)
    requires f < n <= |items| && Opens(items, f)
  {
    && t.out != []
    && t.out[0] == LeftFold(Coerced(items, f), MessagesAt(items, Followers(items, f, n)))
    && (|t.out| == 1 <==> LastSurvivor(items, n) == Newest(f, Followers(items, f, n)))
    && LastSurvivor(items, n) >= Newest(f, Followers(items, f, n))
  }

  lemma ReachesIsSurvives(items: seq<Item>, n: nat)
    requires n < |items|
    ensures Reaches(RunTo(items, n), items[n]) <==> Survives(items, n)
    ensures LastSurvivor(items, n + 1) == if Survives(items, n) then n else LastSurvivor(items, n)
    ensures LastSurvivor(items, n) < n
  {
    Flags(items, n);
  }

  /** A message that reaches an output of one message merges into it exactly when it follows. */
  lemma MergesIsFollows(items: seq<Item>, f: nat, n: nat)
    requires f < n < |items| && Opens(items, f) && Survives(items, n)
    requires OpeningIs(items, f, n, RunTo(items, n)) && |RunTo(items, n).out| == 1
    requires Survives(items, Newest(f, Followers(items, f, n)))
    ensures Merges(RunTo(items, n), items[n]) <==> Follows(items, Newest(f, Followers(items, f, n)), n)
  {
    ReachesIsSurvives(items, n);
    Flags(items, n);
    FollowersRole(items, f, n);
    hide RunTo, Survives, DropBetween, LastSurvivor, Followers, MessagesAt, LeftFold;
  }

  lemma FollowersNext(items: seq<Item>, f: nat, n: nat)
    requires f < n < |items| && Opens(items, f) && OpeningIs(items, f, n, RunTo(items, n))
    ensures var g, t := Followers(items, f, n), RunTo(items, n);
            Followers(items, f, n + 1) == if |t.out| == 1 && Merges(t, items[n]) then g + [n] else g
  {
    FollowersRole(items, f, n);
    ReachesIsSurvives(items, n);
    if |RunTo(items, n).out| == 1 && Survives(items, n) {
      MergesIsFollows(items, f, n);
    }
    hide RunTo, Survives, DropBetween, LastSurvivor, MessagesAt, LeftFold, SameTurn, Step;
  }

  lemma FoldNext(m: Message, items: seq<Item>, g: seq<nat>, n: nat)
    requires forall k :: 0 <= k < |g| ==> g[k] < |items| && Survives(items, g[k])
    requires n < |items| && Survives(items, n)
    ensures LeftFold(m, MessagesAt(items, g + [n]))
            == MergeMessages(LeftFold(m, MessagesAt(items, g)), Coerced(items, n))
  {
    Init(g, n);
    Init(MessagesAt(items, g), Coerced(items, n));
    hide MergeMessages, Survives;
  }

  lemma OpeningNext(items: seq<Item>, f: nat, n: nat)
    requires f < n < |items| && Opens(items, f) && OpeningIs(items, f, n, RunTo(items, n))
    ensures OpeningIs(items, f, n + 1, RunTo(items, n + 1))
  {
    var t, g := RunTo(items, n), Followers(items, f, n);
    assert RunTo(items, n + 1) == Step(t, items[n]);
    StepFirst(t, items[n]);
    FollowersNext(items, f, n);
    ReachesIsSurvives(items, n);
    if |t.out| == 1 && Merges(t, items[n]) {
      FoldNext(Coerced(items, f), items, g, n);
    }
    hide RunTo, Survives, DropBetween, LastSurvivor, MessagesAt, LeftFold, MergeMessages, Step, CoerceMessage, Reaches,
         MergesAt, Followers;
  }

  lemma {:induction false} NothingOut(items: seq<Item>, n: nat)
    requires n <= |items| && Survivors(items, n) == []
    ensures RunTo(items, n).out == []
  {
    hide Step, Survives;
    if n > 0 {
      assert Survivors(items, n - 1) == [] && !Survives(items, n - 1);
      NothingOut(items, n - 1);
      RunNext(items, n - 1);
    }
  }

  lemma FirstReaches(t: State, item: Item)
    requires t.out == [] && Reaches(t, item)
    ensures Step(t, item) == State([CoerceMessage(item).value], false, false)
  {
    hide CoerceMessage;
  }

  lemma OpeningStart(items: seq<Item>, f: nat)
    requires Opens(items, f)
    ensures OpeningIs(items, f, f + 1, RunTo(items, f + 1))
    ensures RunTo(items, f + 1) == State([Coerced(items, f)], false, false)
  {
    NothingOut(items, f);
    ReachesIsSurvives(items, f);
    FirstReaches(RunTo(items, f), items[f]);
    assert RunTo(items, f + 1) == Step(RunTo(items, f), items[f]);
    hide Step, Reaches;
  }

  lemma {:induction false} PrefixRuns(h: seq<Item>, i: seq<Item>, n: nat)
    requires n <= |h|
    ensures RunTo(h + i, n) == RunTo(h, n)
  {
    if n > 0 {
      PrefixRuns(h, i, n - 1);
    }
  }

  /** The history's last message and the input's first are merged at the seam. */
  predicate SeamMerges(s: State, i: seq<Item>, f: nat)
    requires Opens(i, f)
  {
    MergesAt(s.out, Coerced(i, f), s.pending)
  }

  /** What stands before the input's first message once it has joined the history, and that message. */
  function SeamFront(s: State, i: seq<Item>, f: nat): seq<Message>
    requires Opens(i, f)
  {
    if SeamMerges(s, i, f) then s.out[..|s.out| - 1] else s.out
  }

  function SeamMessage(s: State, i: seq<Item>, f: nat): Message
    requires Opens(i, f)
  {
    if SeamMerges(s, i, f) then MergeMessages(Last(s.out), Coerced(i, f)) else Coerced(i, f)
  }

  lemma FirstAcross(s: State, i: seq<Item>, f: nat)
    requires Opens(i, f) && Reaches(s, i[f])
    ensures Step(s, i[f]) == State(SeamFront(s, i, f) + [SeamMessage(s, i, f)], false, false)
  {
    hide MergeMessages;
  }

  /** The first message of one pass over both lists, after n items of the input: the seam message with the followers
      folded on from the left. */
  function Across(s: State, i: seq<Item>, f: nat, n: nat): Message
    requires n <= |i| && Opens(i, f)
  {
    LeftFold(SeamMessage(s, i, f), MessagesAt(i, Followers(i, f, n)))
  }

  /** One pass over both lists is the input's own pass with that message in place of its first. */
  ghost predicate SideBySide(h: seq<Item>, i: seq<Item>, f: nat, n: nat)
    requires f < n <= |i| && Opens(i, f)
  {
    var s, t := RunTo(h + i, |h| + f), RunTo(i, n);
    OpeningIs(i, f, n, t) && RunTo(h + i, |h| + n) == Beside(SeamFront(s, i, f), Across(s, i, f, n), t)
  }

  lemma {:induction false} SplitAt(h: seq<Item>, i: seq<Item>, f: nat, n: nat)
    requires f < n <= |i| && Opens(i, f) && Reaches(RunTo(h + i, |h| + f), i[f])
    ensures SideBySide(h, i, f, n)
  {
    hide SideBySide;
    if n == f + 1 {
      SplitStart(h, i, f);
    } else {
      SplitAt(h, i, f, n - 1);
      SplitNext(h, i, f, n - 1);
    }
  }

  lemma StartsBeside(s: State, i: seq<Item>, f: nat)
    requires Opens(i, f)
    ensures Beside(SeamFront(s, i, f), Across(s, i, f, f + 1), State([Coerced(i, f)], false, false))
            == State(SeamFront(s, i, f) + [SeamMessage(s, i, f)], false, false)
  {
    hide SeamFront, SeamMessage, Survives, Survivors;
  }

  lemma JointNext(h: seq<Item>, i: seq<Item>, n: nat)
    requires n < |i|
    ensures RunTo(h + i, |h| + n + 1) == Step(RunTo(h + i, |h| + n), i[n])
  {
    assert (h + i)[|h| + n] == i[n];
    hide Step;
  }

  lemma SplitStart(h: seq<Item>, i: seq<Item>, f: nat)
    requires Opens(i, f) && Reaches(RunTo(h + i, |h| + f), i[f])
    ensures SideBySide(h, i, f, f + 1)
  {
    hide RunTo, OpeningIs, Across, SeamFront, SeamMessage, Reaches, Step, Beside, Survives, Survivors, CoerceMessage;
    OpeningStart(i, f);
    FirstAcross(RunTo(h + i, |h| + f), i, f);
    StartsBeside(RunTo(h + i, |h| + f), i, f);
    JointNext(h, i, f);
  }

  lemma SplitNext(h: seq<Item>, i: seq<Item>, f: nat, n: nat)
    requires f < n < |i| && Opens(i, f) && SideBySide(h, i, f, n)
    ensures SideBySide(h, i, f, n + 1)
  {
    var s, t := RunTo(h + i, |h| + f), RunTo(i, n);
    assert (h + i)[|h| + n] == i[n];
    OpeningNext(i, f, n);
    FollowersNext(i, f, n);
    ReachesIsSurvives(i, n);
    SeamRole(s, i, f);
    StepBeside(SeamFront(s, i, f), Across(s, i, f, n), t, i[n]);
    if |t.out| == 1 && Merges(t, i[n]) {
      FoldNext(SeamMessage(s, i, f), i, Followers(i, f, n), n);
    }
    assert RunTo(h + i, |h| + n + 1) == Step(RunTo(h + i, |h| + n), i[n]);
    assert RunTo(i, n + 1) == Step(t, i[n]);
    hide RunTo, Survives, LastSurvivor, MessagesAt, LeftFold, MergeMessages, Step, CoerceMessage, Reaches, MergesAt,
      Followers, SeamFront, SeamMessage, Beside;
  }

  lemma SeamRole(s: State, i: seq<Item>, f: nat)
    requires Opens(i, f)
    ensures SeamMessage(s, i, f).role == Coerced(i, f).role
  {
  }

  /** The contents of the input's first message, before they are merged. */
  function OpeningContents(i: seq<Item>, f: nat): seq<Content>
    requires Opens(i, f)
  {
    [Coerced(i, f).content] + ContentsOf(MessagesAt(i, Followers(i, f, |i|)))
  }

  /** The seam is merged, and the last content before it fuses with the first ones after it. */
  predicate SeamFuses(s: State, i: seq<Item>, f: nat)
    requires Opens(i, f)
  {
    SeamMerges(s, i, f) && Fuses(Last(s.out).content, Solid(OpeningContents(i, f)))
  }

  lemma AppendIsBeside(s: State, i: seq<Item>, f: nat, t: State)
    requires Opens(i, f) && t.out != [] && t.out[0].role == Coerced(i, f).role
    ensures Append(s.out, t.out, s.pending)
            == SeamFront(s, i, f) + [if SeamMerges(s, i, f) then MergeMessages(Last(s.out), t.out[0]) else t.out[0]]
                + t.out[1..]
  {
    hide MergeMessages, CoerceMessage;
    if !SeamMerges(s, i, f) {
      assert t.out == [t.out[0]] + t.out[1..];
    }
  }

  lemma SameMiddle(front: seq<Message>, a: Message, b: Message, rest: seq<Message>)
    ensures front + [a] + rest == front + [b] + rest <==> a == b
  {
    var u, v := front + [a] + rest, front + [b] + rest;
    assert u[|front|] == a && v[|front|] == b;
  }

  lemma OneMessageDecides(s: State, i: seq<Item>, f: nat, t: State)
    requires Opens(i, f) && OpeningIs(i, f, |i|, t)
    ensures Beside(SeamFront(s, i, f), Across(s, i, f, |i|), t).out == Append(s.out, t.out, s.pending)
            <==> !SeamFuses(s, i, f)
  {
    var more := MessagesAt(i, Followers(i, f, |i|));
    hide LeftFold, MergeMessages, Followers, MessagesAt, CoerceMessage, LastSurvivor;
    AppendIsBeside(s, i, f, t);
    hide Append, SeamFront, Fuses, Solid, ContentsOf;
    if SeamMerges(s, i, f) {
      MessageFoldsAgree(Last(s.out), Coerced(i, f), more);
      SameMiddle(SeamFront(s, i, f), Across(s, i, f, |i|), MergeMessages(Last(s.out), t.out[0]), t.out[1..]);
    }
  }


  // ----- up to the first message of the input that survives

  predicate AllTools(items: seq<Item>, n: nat)
    requires n <= |items|
  {
    n == 0 || (IsTool(items[n - 1]) && AllTools(items, n - 1))
  }

  /** While nothing of the input survives on its own, one pass over both lists only carries the flags on. */
  lemma {:induction false} NothingYet(h: seq<Item>, i: seq<Item>, n: nat)
    requires n <= |i| && Survivors(i, n) == []
    ensures var s, t := RunTo(h, |h|), RunTo(i, n);
            && t.out == []
            && RunTo(h + i, |h| + n) == State(s.out, t.skip || (s.skip && AllTools(i, n)), s.pending || t.pending)
  {
    NothingOut(i, n);
    if n == 0 {
      PrefixRuns(h, i, |h|);
    } else {
      assert Survivors(i, n - 1) == [] && !Survives(i, n - 1);
      NothingYet(h, i, n - 1);
      JointNext(h, i, n - 1);
      ReachesIsSurvives(i, n - 1);
      hide RunTo, Survives, Survivors, CoerceMessage, IsDroppedTurn, ItemRole;
      IdleStep(RunTo(h, |h|), RunTo(i, n - 1), AllTools(i, n - 1), i[n - 1]);
      assert RunTo(i, n) == Step(RunTo(i, n - 1), i[n - 1]) by {
        RunStep(i, n - 1);
      }
    }
  }

  lemma RunStep(items: seq<Item>, n: nat)
    requires n < |items|
    ensures RunTo(items, n + 1) == Step(RunTo(items, n), items[n])
  {
    hide Step;
  }

  lemma IdleStep(s: State, t: State, tools: bool, item: Item)
    requires t.out == [] && !Reaches(t, item)
    ensures var u := Step(t, item);
            Step(State(s.out, t.skip || (s.skip && tools), s.pending || t.pending), item)
            == State(s.out, u.skip || (s.skip && tools && IsTool(item)), s.pending || u.pending)
  {
    ToolIsNoDrop(item);
    hide CoerceMessage, IsDroppedTurn, ItemRole;
  }

  lemma ToolIsNoDrop(item: Item)
    ensures IsTool(item) ==> !IsDroppedTurn(item)
  {
  }

  function KeptFrom(items: seq<Item>, n: nat): (f: nat)
    requires n <= |items|
    ensures n <= f <= |items|
    ensures f < |items| ==> Survives(items, f)
    ensures forall k :: n <= k < f ==> !Survives(items, k)
    decreases |items| - n
  {
    if n == |items| || Survives(items, n) then n else KeptFrom(items, n + 1)
  }

  lemma {:induction false} NoSurvivors(items: seq<Item>, n: nat)
    requires n <= |items| && forall k :: 0 <= k < n ==> !Survives(items, k)
    ensures Survivors(items, n) == []
  {
    if n > 0 {
      NoSurvivors(items, n - 1);
    }
  }

  /** The position of the first message that survives, or the length. */
  function FirstKept(items: seq<Item>): (f: nat)
    ensures f <= |items| && Survivors(items, f) == []
    ensures f < |items| ==> Opens(items, f)
  {
    NoSurvivors(items, KeptFrom(items, 0));
    KeptFrom(items, 0)
  }

  // ----- tool replies that only the separate pass keeps

  /** A well-formed tool reply among the tool items the list opens with. */
  predicate OpensWithReply(items: seq<Item>) {
    items != [] && IsTool(items[0]) && (CoerceMessage(items[0]).Some? || OpensWithReply(items[1..]))
  }

  /** The history ends in a dropped turn and replies to it, and the input opens with more: one pass skips those. */
  predicate LosesReply(s: State, i: seq<Item>) {
    s.skip && OpensWithReply(i)
  }

  lemma {:induction false} ToolsShift(items: seq<Item>, n: nat)
    requires n < |items| && IsTool(items[0]) && AllTools(items[1..], n)
    ensures AllTools(items, n + 1)
  {
    if n > 0 {
      ToolsShift(items, n - 1);
    }
  }

  lemma {:induction false} ToolsUnshift(items: seq<Item>, n: nat)
    requires 0 < n <= |items| && AllTools(items, n)
    ensures IsTool(items[0]) && AllTools(items[1..], n - 1)
  {
    if n > 1 {
      ToolsUnshift(items, n - 1);
    }
  }

  lemma {:induction false} ReplyAt(items: seq<Item>) returns (k: nat)
    requires OpensWithReply(items)
    ensures k < |items| && AllTools(items, k) && IsTool(items[k]) && CoerceMessage(items[k]).Some?
  {
    k := 0;
    if CoerceMessage(items[0]).None? {
      k := ReplyAt(items[1..]);
      ToolsShift(items, k);
      k := k + 1;
    }
  }

  lemma {:induction false} AtReply(items: seq<Item>, k: nat)
    requires k < |items| && AllTools(items, k) && IsTool(items[k]) && CoerceMessage(items[k]).Some?
    ensures OpensWithReply(items)
  {
    if k > 0 {
      ToolsUnshift(items, k);
      AtReply(items[1..], k - 1);
    }
  }

  function Tools(ms: seq<Message>): nat {
    if ms == [] then 0 else Tools(ms[..|ms| - 1]) + if ms[|ms| - 1].role == "tool" then 1 else 0
  }

  lemma ToolsAppend(out: seq<Message>, m: Message, p: bool)
    ensures Tools(AppendOne(out, m, p)) == Tools(out) + if m.role == "tool" then 1 else 0
  {
    hide MergeMessages;
    if MergesAt(out, m, p) {
      Init(out[..|out| - 1], MergeMessages(out[|out| - 1], m));
    } else {
      Init(out, m);
    }
  }

  lemma {:induction false} ToolsConcat(a: seq<Message>, b: seq<Message>)
    ensures Tools(a + b) == Tools(a) + Tools(b)
  {
    if b == [] {
      assert a + b == a;
    } else {
      ToolsConcat(a, b[..|b| - 1]);
      Front(a, b);
    }
  }

  lemma ToolsJoined(out: seq<Message>, more: seq<Message>, p: bool)
    ensures Tools(Append(out, more, p)) == Tools(out) + Tools(more)
  {
    hide AppendOne, Tools;
    if more == [] {
      assert Tools([]) == 0 by {
        NoTools();
      }
    } else {
      ToolsAppend(out, more[0], p);
      ToolsAppend([], more[0], false);
      ToolsConcat(AppendOne(out, more[0], p), more[1..]);
      ToolsConcat([more[0]], more[1..]);
      assert more == [more[0]] + more[1..];
      AppendToNothing(more[0]);
      NoTools();
    }
  }

  lemma NoTools()
    ensures Tools([]) == 0
  {
  }

  lemma AppendToNothing(m: Message)
    ensures AppendOne([], m, false) == [m]
  {
  }

  lemma ToolsStep(t: State, item: Item)
    ensures Tools(Step(t, item).out) == Tools(t.out) + if Reaches(t, item) && IsTool(item) then 1 else 0
  {
    hide Tools, AppendOne;
    if Reaches(t, item) {
      ToolsAppend(t.out, CoerceMessage(item).value, t.pending);
      CoercedRole(item);
    }
    hide CoerceMessage;
  }

  lemma CoercedRole(item: Item)
    requires CoerceMessage(item).Some?
    ensures ItemRole(item) == Some(CoerceMessage(item).value.role)
  {
  }

  /** One pass skips whatever the separate pass skips; from a lost reply on it is behind by a tool message. */
  lemma {:induction false} StaysBehind(h: seq<Item>, i: seq<Item>, k: nat, n: nat)
    requires k < n <= |i| && RunTo(h, |h|).skip
    requires AllTools(i, k) && IsTool(i[k]) && CoerceMessage(i[k]).Some?
    ensures RunTo(i, n).skip ==> RunTo(h + i, |h| + n).skip
    ensures Tools(RunTo(h + i, |h| + n).out) < Tools(RunTo(h, |h|).out) + Tools(RunTo(i, n).out)
  {
    hide RunTo, Tools;
    if n == k + 1 {
      LostHere(h, i, k);
    } else {
      StaysBehind(h, i, k, n - 1);
      JointNext(h, i, n - 1);
      RunStep(i, n - 1);
      ToolsStep(RunTo(h + i, |h| + n - 1), i[n - 1]);
      ToolsStep(RunTo(i, n - 1), i[n - 1]);
      SkipsToo(RunTo(h + i, |h| + n - 1), RunTo(i, n - 1), i[n - 1]);
      hide Step, Reaches, CoerceMessage;
    }
  }

  lemma SkipsToo(s: State, t: State, item: Item)
    requires t.skip ==> s.skip
    ensures Step(t, item).skip ==> Step(s, item).skip
    ensures Reaches(s, item) ==> Reaches(t, item)
  {
    hide CoerceMessage, IsDroppedTurn, ItemRole, AppendOne;
  }

  lemma {:induction false} SkipsTools(h: seq<Item>, i: seq<Item>, n: nat)
    requires n <= |i| && RunTo(h, |h|).skip && AllTools(i, n)
    ensures RunTo(h + i, |h| + n) == RunTo(h, |h|)
    ensures !RunTo(i, n).skip
  {
    if n == 0 {
      PrefixRuns(h, i, |h|);
    } else {
      SkipsTools(h, i, n - 1);
      JointNext(h, i, n - 1);
      RunStep(i, n - 1);
      ToolIsNoDrop(i[n - 1]);
      hide RunTo, CoerceMessage, IsDroppedTurn, AppendOne;
    }
  }

  lemma LostHere(h: seq<Item>, i: seq<Item>, k: nat)
    requires k < |i| && RunTo(h, |h|).skip && AllTools(i, k) && IsTool(i[k]) && CoerceMessage(i[k]).Some?
    ensures RunTo(i, k + 1).skip ==> RunTo(h + i, |h| + k + 1).skip
    ensures Tools(RunTo(h + i, |h| + k + 1).out) < Tools(RunTo(h, |h|).out) + Tools(RunTo(i, k + 1).out)
  {
    hide RunTo, Tools;
    SkipsTools(h, i, k);
    JointNext(h, i, k);
    RunStep(i, k);
    ToolIsNoDrop(i[k]);
    ToolsStep(RunTo(i, k), i[k]);
    hide CoerceMessage, IsDroppedTurn, AppendOne;
  }

  /** A lost reply tells the two ways apart. */
  lemma LostReplyTells(h: seq<Item>, i: seq<Item>, k: nat)
    requires k < |i| && RunTo(h, |h|).skip && AllTools(i, k) && IsTool(i[k]) && CoerceMessage(i[k]).Some?
    ensures RunTo(h + i, |h + i|).out != Append(RunTo(h, |h|).out, RunTo(i, |i|).out, RunTo(h, |h|).pending)
  {
    hide RunTo, Tools, Append, CoerceMessage, ItemRole, AllTools;
    StaysBehind(h, i, k, |i|);
    assert |h + i| == |h| + |i|;
    ToolsJoined(RunTo(h, |h|).out, RunTo(i, |i|).out, RunTo(h, |h|).pending);
  }

  // ----- the seam as a whole

  /** A turn dropped from the front of the input leaves the seam to one pass alone: it merges what the flag of the
      history does not ask for. */
  predicate MergesLate(s: State, i: seq<Item>) {
    var f := FirstKept(i);
    f < |i| && DropBetween(i, -1, f) && !s.pending && MergesAt(s.out, Coerced(i, f), true)
  }

  /** Contents fuse at a seam that both ways merge. */
  predicate FusesAt(s: State, i: seq<Item>) {
    FirstKept(i) < |i| && SeamFuses(s, i, FirstKept(i))
  }

  predicate SplitFails(s: State, i: seq<Item>) {
    LosesReply(s, i) || MergesLate(s, i) || FusesAt(s, i)
  }

  lemma JointReaches(h: seq<Item>, i: seq<Item>, f: nat)
    requires Opens(i, f) && !LosesReply(RunTo(h, |h|), i)
    ensures var s := RunTo(h, |h|);
            && Reaches(RunTo(h + i, |h| + f), i[f])
            && RunTo(h + i, |h| + f).out == s.out
            && RunTo(h + i, |h| + f).pending == (s.pending || DropBetween(i, -1, f))
  {
    NothingYet(h, i, f);
    ReachesIsSurvives(i, f);
    Flags(i, f);
    hide RunTo, Survives, OpensWithReply, CoerceMessage, IsDroppedTurn, ItemRole;
    if RunTo(h, |h|).skip && AllTools(i, f) && IsTool(i[f]) {
      AtReply(i, f);
    }
  }

  /** With the flag of one pass, `late`, for that of the history alone, the seam differs only by a late merge. */
  lemma SeamDecides(s: State, late: State, i: seq<Item>, f: nat, t: State)
    requires Opens(i, f) && OpeningIs(i, f, |i|, t)
    requires late.out == s.out && (s.pending ==> late.pending)
    ensures Beside(SeamFront(late, i, f), Across(late, i, f, |i|), t).out == Append(s.out, t.out, s.pending) <==>
            !(late.pending && !s.pending && MergesAt(s.out, Coerced(i, f), true)) && !SeamFuses(s, i, f)
  {
    assert t.out[0].role == Coerced(i, f).role && t.out != [];
    OneMessageDecides(late, i, f, t);
    AppendIsBeside(s, i, f, t);
    AppendIsBeside(late, i, f, t);
    hide Across, Append, OpeningIs, Opens, Fuses, OpeningContents, CoerceMessage, MergeMessages, LeftFold;
  }

  /** For every history and every input: coercing the two apart and joining them at the flagged seam is one pass over
      both exactly when no reply is lost, nothing is merged late and no contents fuse. */
  lemma SplitCoercion(h: seq<Item>, i: seq<Item>)
    ensures var s, t, whole := RunTo(h, |h|), RunTo(i, |i|), RunTo(h + i, |h + i|);
            && (whole.out == Append(s.out, t.out, s.pending) <==> !SplitFails(s, i))
            && (!LosesReply(s, i) ==> whole.pending == (t.pending || (FirstKept(i) == |i| && s.pending)))
  {
    hide RunTo, Append, SeamFuses, Across, SeamFront, OpeningIs, Opens, MergesAt, Survives, Survivors, OpensWithReply,
         Reaches;
    assert |h + i| == |h| + |i|;
    var s, f := RunTo(h, |h|), FirstKept(i);
    if LosesReply(s, i) {
      var k := ReplyAt(i);
      LostReplyTells(h, i, k);
    } else if f == |i| {
      NothingYet(h, i, f);
      AppendNothing(s.out, s.pending);
    } else {
      JointReaches(h, i, f);
      SplitAt(h, i, f, |i|);
      SeamDecides(s, RunTo(h + i, |h| + f), i, f, RunTo(i, |i|));
    }
  }

  lemma AppendNothing(out: seq<Message>, p: bool)
    ensures Append(out, [], p) == out
  {
  }

  /** One pass over both lists keeps all of the history's messages but the last. */
  lemma {:induction false} SplitPrefix(h: seq<Item>, i: seq<Item>, n: nat, k: nat)
    requires n <= |i| && k < |RunTo(h, |h|).out|
    ensures k < |RunTo(h + i, |h| + n).out| && RunTo(h + i, |h| + n).out[..k] == RunTo(h, |h|).out[..k]
  {
    hide RunTo, Step;
    if n == 0 {
      PrefixRuns(h, i, |h|);
    } else {
      SplitPrefix(h, i, n - 1, k);
      JointNext(h, i, n - 1);
      StepKeepsFront(RunTo(h + i, |h| + n - 1), i[n - 1], k);
    }
  }

  lemma StepKeepsFront(s: State, item: Item, k: nat)
    requires k < |s.out|
    ensures k < |Step(s, item).out| && Step(s, item).out[..k] == s.out[..k]
  {
    hide CoerceMessage, MergeMessages, IsDroppedTurn, ItemRole;
  }

  // ----- text-or-None content never fuses

  ghost predicate TextItems(items: seq<Item>) {
    forall k :: 0 <= k < |items| && CoerceMessage(items[k]).Some? ==> !CoerceMessage(items[k]).value.content.List?
  }

  lemma {:induction false} TextStaysText(items: seq<Item>, n: nat)
    requires n <= |items| && TextItems(items)
    ensures forall m :: m in RunTo(items, n).out ==> !m.content.List?
  {
    if n > 0 {
      TextStaysText(items, n - 1);
    }
  }

  lemma {:induction false} SolidNoList(cs: seq<Content>)
    requires forall k :: 0 <= k < |cs| ==> !cs[k].List?
    ensures !AnyList(Solid(cs))
  {
    if cs != [] {
      var n := |cs| - 1;
      SolidNoList(cs[..n]);
      if cs[n].NoContent? {
        assert Solid(cs) == Solid(cs[..n]);
      } else {
        Init(Solid(cs[..n]), cs[n]);
      }
    }
  }

  lemma {:induction false} TextContents(items: seq<Item>, g: seq<nat>)
    requires TextItems(items) && forall k :: 0 <= k < |g| ==> g[k] < |items| && Survives(items, g[k])
    ensures forall c :: c in ContentsOf(MessagesAt(items, g)) ==> !c.List?
  {
    if g != [] {
      TextContents(items, g[..|g| - 1]);
      Init(MessagesAt(items, g[..|g| - 1]), Coerced(items, g[|g| - 1]));
    }
  }

  lemma OpeningText(i: seq<Item>, f: nat)
    requires Opens(i, f) && TextItems(i)
    ensures forall c :: c in OpeningContents(i, f) ==> !c.List?
  {
    hide Followers, MessagesAt, ContentsOf, CoerceMessage;
    TextContents(i, Followers(i, f, |i|));
  }

  /** With text-or-None content only a lost reply or a late merge tells the two ways apart. */
  lemma TextNeverFuses(h: seq<Item>, i: seq<Item>)
    requires TextItems(h) && TextItems(i)
    ensures !FusesAt(RunTo(h, |h|), i)
  {
    TextStaysText(h, |h|);
    hide RunTo, OpeningContents, Opens, TextItems;
    if FirstKept(i) < |i| {
      OpeningText(i, FirstKept(i));
      SolidNoList(OpeningContents(i, FirstKept(i)));
    }
    hide Solid;
  }

  /** With block-list content the two ways of coercing can differ: here two strings fuse before a list. */
  lemma SplitFailsOnLists()
    ensures exists h, i ::
              RunTo(h + i, |h + i|).out != Append(RunTo(h, |h|).out, RunTo(i, |i|).out, RunTo(h, |h|).pending)
  {
    var a := Message("user", Str("a"), None, Some(map[]), None, None);
    var b := a.(content := Str("b"));
    var c := a.(content := List([TextBlock("c")]));
    var drop := MessageItem(Message("assistant", NoContent, None, None, None, None));
    var h, i := [MessageItem(a), drop], [MessageItem(b), drop, MessageItem(c)];
    hide MergeMessages, Step, AppendOne;
    RunTwice(h, a);
    RunTwice(i, b);
    RunOnce(i, 2, b, c);
    PrefixRuns(h, i, 2);
    var all, ab := h + i, MergeMessages(a, b);
    assert all[2] == i[0] && all[3] == i[1] && all[4] == i[2];
    RunOnce(all, 2, a, b);
    assert RunTo(all, 4) == Step(RunTo(all, 3), all[3]);
    StepDrop(RunTo(all, 3), all[3]);
    RunOnce(all, 4, ab, c);
    MergeAssociativity(a, b, c);
    SeamOfOne(a, MergeMessages(b, c));
    assert RunTo(all, |all|).out != Append(RunTo(h, |h|).out, RunTo(i, |i|).out, RunTo(h, |h|).pending);
  }

  lemma StepDrop(s: State, item: Item)
    requires IsDroppedTurn(item)
    ensures Step(s, item) == State(s.out, true, true)
  {
  }

  lemma SeamOfOne(a: Message, b: Message)
    requires a.role == b.role == "user"
    ensures Append([a], [b], true) == [MergeMessages(a, b)]
  {
  }

  lemma RunOnce(items: seq<Item>, n: nat, a: Message, b: Message)
    requires n < |items| && items[n] == MessageItem(b) && a.role == b.role == "user"
    requires RunTo(items, n) == State([a], true, true)
    ensures RunTo(items, n + 1) == State([MergeMessages(a, b)], false, false)
  {
  }

  lemma RunTwice(items: seq<Item>, m: Message)
    requires |items| >= 2 && items[0] == MessageItem(m) && m.role == "user"
    requires IsDroppedTurn(items[1])
    ensures RunTo(items, 2) == State([m], true, true)
  {
    assert RunTo(items, 0) == State([], false, false);
    assert RunTo(items, 1) == Step(RunTo(items, 0), items[0]);
    assert RunTo(items, 1).out == [m];
  }

  /** With plain text they can differ too: the history's flag misses a turn dropped from the front of the input. */
  lemma SplitFailsOnDrop(m: Message, drop: Item)
    requires m.role == "user" && m.content.Str? && IsDroppedTurn(drop)
    ensures var h, i := [MessageItem(m)], [drop, MessageItem(m)];
            && Append(RunTo(h, 1).out, RunTo(i, 2).out, RunTo(h, 1).pending) == [m, m]
            && RunTo(h + i, 3).out == [MergeMessages(m, m)]
  {
    var item := MessageItem(m);
    var h, i := [item], [drop, item];
    assert RunTo(h, 0) == RunTo(i, 0) == State([], false, false);
    StepUser(State([], false, false), m);
    StepUser(State([], true, true), m);
    StepUser(State([m], true, true), m);
    StepDrop(State([], false, false), drop);
    StepDrop(State([m], false, false), drop);
    hide MergeMessages, RunTo, Step, IsDroppedTurn;
    RunStep(h, 0);
    RunStep(i, 0);
    RunStep(i, 1);
    PrefixRuns(h, i, 1);
    JointNext(h, i, 0);
    JointNext(h, i, 1);
  }

  lemma StepUser(s: State, m: Message)
    requires m.role == "user" && m.content.Str?
    ensures Step(s, MessageItem(m)) == State(AppendOne(s.out, m, s.pending), false, false)
  {
  }

  /** And a reply to a turn dropped from the end of the history is lost when it comes with the input. */
  lemma SplitLosesReply(reply: Message, drop: Item)
    requires reply.role == "tool" && IsDroppedTurn(drop)
    ensures var h, i := [drop], [MessageItem(reply)];
            && Append(RunTo(h, 1).out, RunTo(i, 1).out, RunTo(h, 1).pending) == [reply]
            && RunTo(h + i, 2).out == []
  {
    var h, i := [drop], [MessageItem(reply)];
    RunStep(h, 0);
    RunStep(i, 0);
    PrefixRuns(h, i, 1);
    JointNext(h, i, 0);
  }
}

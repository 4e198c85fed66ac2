/** SessionDedup from stages.py: oversized tool output truncated, then repeats collapsed onto the last copy. */
module SessionDedup {
  import opened Wrappers
  import opened Json
  import opened ToolResults
  import ToolOutput
  import PromptCache

  const DedupMin: nat := 2000
  const LongChars: nat := 1200

  // How a long output is shortened, given the tool's name.
  type Rule = (string, string) -> string

  // ----- tool names

  predicate IsToolUse(block: Json) {
    Get(block, "type") == Some(Str("tool_use"))
  }

  function StringAt(j: Json, key: string): string {
    match Get(j, key)
    case Some(Str(s)) => s
    case _ => ""
  }

  function AddName(names: map<string, string>, block: Json): map<string, string> {
    var id := StringAt(block, "id");
    if IsToolUse(block) && id != "" then names[id := StringAt(block, "name")] else names
  }

  function AddNames(names: map<string, string>, blocks: seq<Json>): map<string, string> {
    if blocks == [] then names else AddName(AddNames(names, blocks[..|blocks| - 1]), blocks[|blocks| - 1])
  }

  function ToolNames(turns: seq<Json>): map<string, string> {
    if turns == [] then map[]
    else AddNames(ToolNames(turns[..|turns| - 1]), Items(Get(turns[|turns| - 1], "content")))
  }

  function NameFor(names: map<string, string>, block: Json): string {
    var id := StringAt(block, "tool_use_id");
    if id in names then names[id] else ""
  }

  // All blocks of the conversation, in document order.
  function AllBlocks(turns: seq<Json>): seq<Json> {
    if turns == [] then []
    else AllBlocks(turns[..|turns| - 1]) + Items(Get(turns[|turns| - 1], "content"))
  }

  predicate Names(block: Json, id: string) {
    IsToolUse(block) && id != "" && StringAt(block, "id") == id
  }

  lemma {:induction false} AddNamesConcat(names: map<string, string>, a: seq<Json>, b: seq<Json>)
    ensures AddNames(names, a + b) == AddNames(AddNames(names, a), b)
  {
    hide AddName;
    if b == [] {
      assert a + b == a;
    } else {
      AddNamesConcat(names, a, b[..|b| - 1]);
      Front(a, b);
    }
  }

  lemma {:induction false} NamesOfAll(turns: seq<Json>)
    ensures ToolNames(turns) == AddNames(map[], AllBlocks(turns))
  {
    if turns != [] {
      NamesOfAll(turns[..|turns| - 1]);
      AddNamesConcat(map[], AllBlocks(turns[..|turns| - 1]), Items(Get(turns[|turns| - 1], "content")));
    }
  }

  /** The position of the last block with that id, or the number of blocks. */
  function LastNamed(blocks: seq<Json>, id: string): (k: nat)
    ensures k <= |blocks|
    ensures k < |blocks| ==> Names(blocks[k], id) && forall j :: k < j < |blocks| ==> !Names(blocks[j], id)
    ensures k == |blocks| ==> forall j :: 0 <= j < |blocks| ==> !Names(blocks[j], id)
  {
    if blocks == [] then 0
    else
      var n := |blocks| - 1;
      var k := LastNamed(blocks[..n], id);
      if Names(blocks[n], id) then n else if k < n then k else n + 1
  }

  lemma {:induction false} LastNameWins(blocks: seq<Json>, id: string)
    ensures var names, k := AddNames(map[], blocks), LastNamed(blocks, id);
            && (id in names <==> k < |blocks|)
            && (id in names ==> names[id] == StringAt(blocks[k], "name"))
  {
    hide Get;
    if blocks != [] {
      LastNameWins(blocks[..|blocks| - 1], id);
    }
  }

  /** An id has a name exactly when some tool_use block carries it, and it is the name in the last one that does. */
  lemma NameIsLast(turns: seq<Json>, id: string)
    ensures var blocks, names := AllBlocks(turns), ToolNames(turns);
            var k := LastNamed(blocks, id);
            && (id in names <==> k < |blocks|)
            && (id in names ==> names[id] == StringAt(blocks[k], "name"))
  {
    NamesOfAll(turns);
    LastNameWins(AllBlocks(turns), id);
    hide AddNames, ToolNames, AllBlocks, LastNamed, StringAt;
  }

  method BuildToolNames(turns: seq<Json>) returns (names: map<string, string>)
    ensures names == ToolNames(turns)
  {
    names := map[];
    for i := 0 to |turns|
      invariant names == ToolNames(turns[..i])
    {
      Prefixes(turns, i);
      var blocks := Items(Get(turns[i], "content"));
      for j := 0 to |blocks|
        invariant names == AddNames(ToolNames(turns[..i]), blocks[..j])
      {
        Prefixes(blocks, j);
        names := AddName(names, blocks[j]);
      }
      assert blocks[..|blocks|] == blocks;
    }
    assert turns[..|turns|] == turns;
  }

  // ----- truncation

  predicate IsLong(turns: seq<Json>, a: Slot) {
    var text := Text(turns, a);
    text.Some? && |text.value| > 1200
  }

  function Shortened(rule: Rule, turns: seq<Json>, names: map<string, string>, a: Slot): string {
    rule(NameFor(names, BlockAt(turns, a.turn, a.block)), Text(turns, a).GetOr(""))
  }

  ghost predicate TruncatedAt(rule: Rule, turns: seq<Json>, names: map<string, string>, w: Writes, end: Slot, a: Slot) {
    if IsLong(turns, a) && Before(a, end) then a in w && w[a] == Shortened(rule, turns, names, a) else a !in w
  }

  /** Exactly the long texts before `end` are shortened, each by the rule for the tool it came from. */
  ghost predicate TruncationUpTo(rule: Rule, turns: seq<Json>, names: map<string, string>, w: Writes, end: Slot) {
    forall a :: TruncatedAt(rule, turns, names, w, end, a)
  }

  ghost predicate IsTruncation(rule: Rule, turns: seq<Json>, w: Writes) {
    TruncationUpTo(rule, turns, ToolNames(turns), w, Slot(|turns|, 0, 0))
  }

  // No slot with a text lies between the two.
  ghost predicate Gap(turns: seq<Json>, from: Slot, to: Slot) {
    forall a :: Before(a, to) && !Before(a, from) ==> Text(turns, a).None?
  }

  function Ranks(block: Json): nat {
    1 + |Items(Get(block, "content"))|
  }

  lemma BlockGap(turns: seq<Json>, i: nat, j: nat)
    requires i < |turns| && j < |ResultBlocks(turns[i])|
    ensures Gap(turns, Slot(i, j, Ranks(ResultBlocks(turns[i])[j])), Slot(i, j + 1, 0))
  {
  }

  lemma TurnGap(turns: seq<Json>, i: nat)
    requires i < |turns|
    ensures Gap(turns, Slot(i, |ResultBlocks(turns[i])|, 0), Slot(i + 1, 0, 0))
  {
  }

  lemma TruncationSkips(rule: Rule, turns: seq<Json>, names: map<string, string>, w: Writes, from: Slot, to: Slot)
    requires TruncationUpTo(rule, turns, names, w, from) && Gap(turns, from, to)
    requires Before(from, to)
    ensures TruncationUpTo(rule, turns, names, w, to)
  {
    hide Text, Shortened;
    forall a ensures TruncatedAt(rule, turns, names, w, to, a) {
      assert TruncatedAt(rule, turns, names, w, from, a);
    }
  }

  lemma TruncationStep(rule: Rule, turns: seq<Json>, names: map<string, string>, w: Writes, a: Slot)
    requires TruncationUpTo(rule, turns, names, w, a)
    ensures var w' := if IsLong(turns, a) then w[a := Shortened(rule, turns, names, a)] else w;
            TruncationUpTo(rule, turns, names, w', Slot(a.turn, a.block, a.rank + 1))
  {
    hide IsLong, Shortened;
    var w' := if IsLong(turns, a) then w[a := Shortened(rule, turns, names, a)] else w;
    var next := Slot(a.turn, a.block, a.rank + 1);
    forall b ensures TruncatedAt(rule, turns, names, w', next, b) {
      assert TruncatedAt(rule, turns, names, w, a, b);
    }
  }

  /** What a slot reads midway: the old text from here on, and the same tool at any time. */
  lemma Midway(rule: Rule, was: seq<Json>, names: map<string, string>, w: Writes, a: Slot)
    requires TruncationUpTo(rule, was, names, w, a)
    ensures Text(Written(was, w), a) == Text(was, a)
  {
    assert TruncatedAt(rule, was, names, w, a, a);
    hide Text, Written, Shortened, IsLong;
    WrittenText(was, w, a);
  }

  lemma WrittenShape(turns: seq<Json>, w: Writes, i: nat, j: nat)
    requires i < |turns|
    ensures |ResultBlocks(Written(turns, w)[i])| == |ResultBlocks(turns[i])|
    ensures Ranks(BlockAt(Written(turns, w), i, j)) == Ranks(BlockAt(turns, i, j))
    ensures StringAt(BlockAt(Written(turns, w), i, j), "tool_use_id") == StringAt(BlockAt(turns, i, j), "tool_use_id")
  {
    WrittenTurnBlocks(turns[i], i, w);
    hide ResultBlocks, WrittenTurn, WrittenBlock, StringAt;
    var blocks := ResultBlocks(turns[i]);
    if j < |blocks| {
      WrittenBlockShape(blocks[j], i, j, w);
    }
  }

  lemma WrittenBlockShape(block: Json, i: nat, j: nat, w: Writes)
    ensures Ranks(WrittenBlock(block, i, j, w)) == Ranks(block)
    ensures StringAt(WrittenBlock(block, i, j, w), "tool_use_id") == StringAt(block, "tool_use_id")
  {
    ToolResultIsObj(block);
    hide Get, Put, WrittenPart;
    if IsToolResult(block) {
      match Get(block, "content")
      case Some(Str(s)) =>
        GetPut(block, "content", Str(if Slot(i, j, 0) in w then w[Slot(i, j, 0)] else s), "content");
        GetPut(block, "content", Str(if Slot(i, j, 0) in w then w[Slot(i, j, 0)] else s), "tool_use_id");
      case Some(Arr(parts)) =>
        GetPut(block, "content", Arr(WrittenParts(parts, i, j, w)), "content");
        GetPut(block, "content", Arr(WrittenParts(parts, i, j, w)), "tool_use_id");
      case _ =>
    }
  }

  // ----- repeats

  type Digest = string -> string

  function Placeholder(digest: string): (r: string)
    ensures |r| <= DedupMin
  {
    "(byoai-runtime dedup notice: identical tool output appears in full later in this request; SHA "
    + (if |digest| <= 8 then digest else digest[..8]) + ")"
  }

  /** The placeholder shows the first eight digits of the digest, and nothing else of it. */
  lemma PlaceholderShows(a: string, b: string)
    requires |a| >= 8 && |b| >= 8
    ensures Placeholder(a) == Placeholder(b) <==> a[..8] == b[..8]
    ensures exists k :: 0 <= k <= |Placeholder(a)| && a[..8] <= Placeholder(a)[k..]
  {
    var head := "(byoai-runtime dedup notice: identical tool output appears in full later in this request; SHA ";
    var x, y := Placeholder(a), Placeholder(b);
    assert |head| == 94;
    assert x == head + a[..8] + ")" && y == head + b[..8] + ")";
    assert x[94..][..8] == a[..8] && y[94..][..8] == b[..8];
    assert a[..8] <= x[94..];
  }

  /** The tool a result came from is the one its tool_use_id names. */
  lemma NameForMeaning(names: map<string, string>, block: Json, id: string)
    ensures Get(block, "tool_use_id") == Some(Str(id)) ==>
              NameFor(names, block) == if id in names then names[id] else ""
  {
    hide Get;
  }

  predicate IsLarge(turns: seq<Json>, a: Slot) {
    var text := Text(turns, a);
    text.Some? && |text.value| > 2000
  }

  ghost predicate Repeats(turns: seq<Json>, a: Slot, b: Slot) {
    IsLarge(turns, a) && Before(a, b) && Text(turns, b) == Text(turns, a)
  }

  ghost predicate RepeatedLater(turns: seq<Json>, a: Slot) {
    exists b :: Repeats(turns, a, b)
  }

  ghost predicate NoCollision(sha: Digest, turns: seq<Json>) {
    forall a, b :: IsLarge(turns, a) && IsLarge(turns, b) ==>
        Apart(sha, Text(turns, a).GetOr(""), Text(turns, b).GetOr(""))
  }

  ghost predicate Apart(sha: Digest, s: string, t: string) {
    sha(s) == sha(t) ==> s == t
  }

  ghost predicate CollapsedAt(sha: Digest, turns: seq<Json>, w: Writes, a: Slot) {
    if RepeatedLater(turns, a) then a in w && w[a] == Placeholder(sha(Text(turns, a).GetOr(""))) else a !in w
  }

  /** Exactly the large texts that come again are replaced. */
  ghost predicate IsCollapse(sha: Digest, turns: seq<Json>, w: Writes) {
    forall a :: CollapsedAt(sha, turns, w, a)
  }

  // ----- occurrences by digest, in document order

  type Occurrences = map<string, seq<Slot>>

  ghost predicate Ascending(slots: seq<Slot>) {
    forall p, q :: 0 <= p < q < |slots| ==> Before(slots[p], slots[q])
  }

  function SlotDigest(sha: Digest, turns: seq<Json>, a: Slot): string {
    sha(Text(turns, a).GetOr(""))
  }

  ghost predicate Holds(occ: Occurrences, h: string, a: Slot) {
    h in occ && a in occ[h]
  }

  /** Every large text before `end`, under its digest and nothing else, each list ascending. */
  ghost predicate Recorded(sha: Digest, turns: seq<Json>, occ: Occurrences, end: Slot) {
    && (forall h, a :: Holds(occ, h, a) <==> IsLarge(turns, a) && Before(a, end) && h == SlotDigest(sha, turns, a))
    && (forall h :: h in occ ==> occ[h] != [] && Ascending(occ[h]))
  }

  function Record(sha: Digest, occ: Occurrences, text: string, a: Slot): Occurrences {
    if |text| <= DedupMin then occ
    else
      var h := sha(text);
      occ[h := (if h in occ then occ[h] else []) + [a]]
  }

  lemma RecordStep(sha: Digest, turns: seq<Json>, occ: Occurrences, a: Slot)
    requires Recorded(sha, turns, occ, a) && Text(turns, a).Some?
    ensures Recorded(sha, turns, Record(sha, occ, Text(turns, a).value, a), Slot(a.turn, a.block, a.rank + 1))
  {
    hide Text;
    var next, occ' := Slot(a.turn, a.block, a.rank + 1), Record(sha, occ, Text(turns, a).value, a);
    forall h, b ensures Holds(occ', h, b) <==> IsLarge(turns, b) && Before(b, next) && h == SlotDigest(sha, turns, b) {
      assert Holds(occ, h, b) <==> IsLarge(turns, b) && Before(b, a) && h == SlotDigest(sha, turns, b);
    }
    forall h | h in occ' ensures occ'[h] != [] && Ascending(occ'[h]) {
      if h in occ {
        LastInOrder(sha, turns, occ, a, h);
      }
    }
  }

  lemma LastInOrder(sha: Digest, turns: seq<Json>, occ: Occurrences, a: Slot, h: string)
    requires Recorded(sha, turns, occ, a) && h in occ
    ensures Ascending(occ[h] + [a])
  {
    hide IsLarge, SlotDigest;
    assert Ascending(occ[h]);
    forall p | 0 <= p < |occ[h]| ensures Before(occ[h][p], a) {
      assert Holds(occ, h, occ[h][p]);
    }
  }

  lemma RecordedSkips(sha: Digest, turns: seq<Json>, occ: Occurrences, from: Slot, to: Slot)
    requires Recorded(sha, turns, occ, from) && Gap(turns, from, to) && Before(from, to)
    ensures Recorded(sha, turns, occ, to)
  {
    forall a ensures IsLarge(turns, a) && Before(a, from) <==> IsLarge(turns, a) && Before(a, to) {
    }
    hide IsLarge, SlotDigest, Ascending, Gap, Before;
  }

  // ----- all but the last of each list

  ghost predicate SoundAt(sha: Digest, turns: seq<Json>, w: Writes, a: Slot) {
    a in w ==> RepeatedLater(turns, a) && w[a] == Placeholder(SlotDigest(sha, turns, a))
  }

  ghost predicate SoundWrites(sha: Digest, turns: seq<Json>, w: Writes) {
    forall a :: SoundAt(sha, turns, w, a)
  }

  ghost predicate Covers(w: Writes, slots: seq<Slot>, n: int) {
    forall p :: 0 <= p < n && p < |slots| ==> slots[p] in w
  }

  lemma EarlierRepeats(sha: Digest, turns: seq<Json>, occ: Occurrences, end: Slot, h: string, n: nat)
    requires Recorded(sha, turns, occ, end) && NoCollision(sha, turns)
    requires h in occ && n < |occ[h]| - 1
    ensures RepeatedLater(turns, occ[h][n]) && SlotDigest(sha, turns, occ[h][n]) == h && Text(turns, occ[h][n]).Some?
  {
    var a, b := occ[h][n], occ[h][|occ[h]| - 1];
    hide Text;
    assert Ascending(occ[h]);
    assert Holds(occ, h, a) && Holds(occ, h, b);
    assert Apart(sha, Text(turns, a).GetOr(""), Text(turns, b).GetOr(""));
    assert Repeats(turns, a, b);
  }

  lemma CollapseStep(sha: Digest, turns: seq<Json>, w: Writes, a: Slot)
    requires SoundWrites(sha, turns, w) && RepeatedLater(turns, a)
    ensures SoundWrites(sha, turns, w[a := Placeholder(SlotDigest(sha, turns, a))])
  {
    hide RepeatedLater, Placeholder, SlotDigest;
    var w' := w[a := Placeholder(SlotDigest(sha, turns, a))];
    forall b ensures SoundAt(sha, turns, w', b) {
      assert SoundAt(sha, turns, w, b);
    }
  }

  lemma RepeatIsEarlier(sha: Digest, turns: seq<Json>, occ: Occurrences, a: Slot, b: Slot) returns (h: string, p: nat)
    requires Recorded(sha, turns, occ, Slot(|turns|, 0, 0)) && Repeats(turns, a, b)
    ensures h in occ && p < |occ[h]| - 1 && occ[h][p] == a
  {
    assert a.turn < |turns| && b.turn < |turns|;
    hide Text;
    h := SlotDigest(sha, turns, a);
    assert Holds(occ, h, a) && Holds(occ, h, b);
    p :| p < |occ[h]| && occ[h][p] == a;
    var q: nat :| q < |occ[h]| && occ[h][q] == b;
    assert Ascending(occ[h]);
    assert q < p ==> Before(b, a);
  }

  lemma AllCovered(sha: Digest, turns: seq<Json>, occ: Occurrences, w: Writes)
    requires Recorded(sha, turns, occ, Slot(|turns|, 0, 0)) && SoundWrites(sha, turns, w)
    requires forall h :: h in occ ==> Covers(w, occ[h], |occ[h]| - 1)
    ensures IsCollapse(sha, turns, w)
  {
    hide Recorded, Repeats, Placeholder;
    forall a ensures CollapsedAt(sha, turns, w, a) {
      assert SoundAt(sha, turns, w, a);
      if RepeatedLater(turns, a) {
        var b :| Repeats(turns, a, b);
        var h, p := RepeatIsEarlier(sha, turns, occ, a, b);
        assert Covers(w, occ[h], |occ[h]| - 1);
      }
    }
  }

  class Messages {
    var turns: seq<Json>

    constructor (turns: seq<Json>)
      ensures this.turns == turns
    {
      this.turns := turns;
    }

    method TruncateSlot(rule: Rule, names: map<string, string>, a: Slot, tool: string, ghost was: seq<Json>,
                        ghost w: Writes) returns (ghost w': Writes)
      requires turns == Written(was, w) && TruncationUpTo(rule, was, names, w, a)
      requires tool == NameFor(names, BlockAt(was, a.turn, a.block))
      modifies this
      ensures turns == Written(was, w') && TruncationUpTo(rule, was, names, w', Slot(a.turn, a.block, a.rank + 1))
    {
      LongMidway(rule, was, names, w, a);
      TruncationStep(rule, was, names, w, a);
      hide Text, SetText, Written, TruncationUpTo, BlockAt;
      w' := w;
      var text := Text(turns, a);
      if text.Some? && |text.value| > LongChars {
        SetWritten(was, w, a, Shortened(rule, was, names, a));
        turns := SetText(turns, a, rule(tool, text.value));
        w' := w[a := Shortened(rule, was, names, a)];
      }
    }

    method TruncateBlock(rule: Rule, names: map<string, string>, i: nat, j: nat, ghost was: seq<Json>, ghost w: Writes)
        returns (ghost w': Writes)
      requires i < |was| && j < |ResultBlocks(was[i])|
      requires turns == Written(was, w) && TruncationUpTo(rule, was, names, w, Slot(i, j, 0))
      modifies this
      ensures turns == Written(was, w') && TruncationUpTo(rule, was, names, w', Slot(i, j + 1, 0))
    {
      WrittenShape(was, w, i, j);
      BlockGap(was, i, j);
      hide Gap, ResultBlocks, Written, BlockAt, Ranks, StringAt, TruncationUpTo;
      var block := BlockAt(turns, i, j);
      w' := w;
      for r := 0 to Ranks(block)
        invariant turns == Written(was, w') && TruncationUpTo(rule, was, names, w', Slot(i, j, r))
      {
        w' := TruncateSlot(rule, names, Slot(i, j, r), NameFor(names, block), was, w');
      }
      TruncationSkips(rule, was, names, w', Slot(i, j, Ranks(block)), Slot(i, j + 1, 0));
    }

    method TruncateOversized(rule: Rule, names: map<string, string>) returns (ghost w: Writes)
      requires names == ToolNames(turns)
      modifies this
      ensures IsTruncation(rule, old(turns), w) && turns == Written(old(turns), w)
    {
      ghost var was := turns;
      w := map[];
      NoWrite(turns);
      NothingYet(rule, was, names);
      hide TruncationUpTo, ResultBlocks, ToolNames, Gap;
      for i := 0 to |turns|
        invariant |turns| == |was| && turns == Written(was, w) && TruncationUpTo(rule, was, names, w, Slot(i, 0, 0))
      {
        WrittenShape(was, w, i, 0);
        TurnGap(was, i);
        var n := |ResultBlocks(turns[i])|;
        for j := 0 to n
          invariant |turns| == |was| && turns == Written(was, w) && TruncationUpTo(rule, was, names, w, Slot(i, j, 0))
        {
          w := TruncateBlock(rule, names, i, j, was, w);
        }
        TruncationSkips(rule, was, names, w, Slot(i, n, 0), Slot(i + 1, 0, 0));
      }
    }

    method RecordBlock(sha: Digest, occ: Occurrences, i: nat, j: nat) returns (occ': Occurrences)
      requires i < |turns| && j < |ResultBlocks(turns[i])|
      requires Recorded(sha, turns, occ, Slot(i, j, 0))
      ensures Recorded(sha, turns, occ', Slot(i, j + 1, 0))
    {
      BlockGap(turns, i, j);
      hide Recorded, Gap, ResultBlocks, Text, Ranks, Record;
      var block := BlockAt(turns, i, j);
      occ' := occ;
      for r := 0 to Ranks(block)
        invariant Recorded(sha, turns, occ', Slot(i, j, r))
      {
        var a := Slot(i, j, r);
        var text := Text(turns, a);
        if text.Some? {
          RecordStep(sha, turns, occ', a);
          occ' := Record(sha, occ', text.value, a);
        } else {
          OneSlotGap(turns, a);
          RecordedSkips(sha, turns, occ', a, Slot(i, j, r + 1));
        }
      }
      RecordedSkips(sha, turns, occ', Slot(i, j, Ranks(block)), Slot(i, j + 1, 0));
    }

    method FindOccurrences(sha: Digest) returns (occ: Occurrences)
      ensures Recorded(sha, turns, occ, Slot(|turns|, 0, 0))
    {
      occ := map[];
      NoneRecorded(sha, turns);
      hide Recorded, Gap, ResultBlocks;
      for i := 0 to |turns|
        invariant Recorded(sha, turns, occ, Slot(i, 0, 0))
      {
        TurnGap(turns, i);
        var n := |ResultBlocks(turns[i])|;
        for j := 0 to n
          invariant Recorded(sha, turns, occ, Slot(i, j, 0))
        {
          occ := RecordBlock(sha, occ, i, j);
        }
        RecordedSkips(sha, turns, occ, Slot(i, n, 0), Slot(i + 1, 0, 0));
      }
    }

    method CollapseSlot(ghost sha: Digest, a: Slot, h: string, ghost was: seq<Json>, ghost w: Writes)
        returns (ghost w': Writes)
      requires turns == Written(was, w) && SoundWrites(sha, was, w)
      requires RepeatedLater(was, a) && Text(was, a).Some? && h == SlotDigest(sha, was, a)
      modifies this
      ensures turns == Written(was, w') && SoundWrites(sha, was, w') && w'.Keys == w.Keys + {a}
    {
      CollapseStep(sha, was, w, a);
      SetWritten(was, w, a, Placeholder(h));
      hide SoundWrites, Written, SetText, Text, Placeholder, SlotDigest;
      w' := w[a := Placeholder(h)];
      turns := SetText(turns, a, Placeholder(h));
    }

    /** Every slot in the list but the last gets the placeholder. */
    method CollapseOne(sha: Digest, occ: Occurrences, h: string, ghost was: seq<Json>, ghost w: Writes)
        returns (ghost w': Writes)
      requires h in occ && Recorded(sha, was, occ, Slot(|was|, 0, 0)) && NoCollision(sha, was)
      requires turns == Written(was, w) && SoundWrites(sha, was, w)
      modifies this
      ensures turns == Written(was, w') && SoundWrites(sha, was, w')
      ensures w.Keys <= w'.Keys && Covers(w', occ[h], |occ[h]| - 1)
    {
      hide Recorded, NoCollision, SoundWrites, Written, Text, RepeatedLater;
      w' := w;
      for n := 0 to if occ[h] == [] then 0 else |occ[h]| - 1
        invariant turns == Written(was, w') && SoundWrites(sha, was, w')
        invariant w.Keys <= w'.Keys && Covers(w', occ[h], n)
      {
        EarlierRepeats(sha, was, occ, Slot(|was|, 0, 0), h, n);
        w' := CollapseSlot(sha, occ[h][n], h, was, w');
      }
    }

    /** The lists can be worked through in any order. */
    method CollapseRepeated(sha: Digest) returns (ghost w: Writes)
      requires NoCollision(sha, turns)
      modifies this
      ensures IsCollapse(sha, old(turns), w) && turns == Written(old(turns), w)
    {
      ghost var was := turns;
      var occ := FindOccurrences(sha);
      w := map[];
      NoWrite(turns);
      NothingWritten(sha, was);
      var remaining := occ.Keys;
      hide Recorded, NoCollision, SoundWrites, Written, IsCollapse;
      while remaining != {}
        invariant remaining <= occ.Keys
        invariant turns == Written(was, w) && SoundWrites(sha, was, w)
        invariant forall h :: h in occ && h !in remaining ==> Covers(w, occ[h], |occ[h]| - 1)
      {
        var h :| h in remaining;
        remaining := remaining - {h};
        w := CollapseOne(sha, occ, h, was, w);
      }
      AllCovered(sha, was, occ, w);
    }
  }

  lemma NothingWritten(sha: Digest, turns: seq<Json>)
    ensures SoundWrites(sha, turns, map[])
  {
    hide RepeatedLater;
  }

  lemma OneSlotGap(turns: seq<Json>, a: Slot)
    requires Text(turns, a).None?
    ensures Gap(turns, a, Slot(a.turn, a.block, a.rank + 1))
  {
    hide Text;
  }

  lemma NoneRecorded(sha: Digest, turns: seq<Json>)
    ensures Recorded(sha, turns, map[], Slot(0, 0, 0))
  {
    hide IsLarge, SlotDigest;
  }

  lemma LongMidway(rule: Rule, was: seq<Json>, names: map<string, string>, w: Writes, a: Slot)
    requires TruncationUpTo(rule, was, names, w, a)
    ensures IsLong(Written(was, w), a) == IsLong(was, a)
    ensures Text(Written(was, w), a) == Text(was, a)
    ensures IsLong(was, a) ==> Text(was, a).Some?
  {
    hide Text, Written;
    Midway(rule, was, names, w, a);
  }

  lemma NothingYet(rule: Rule, turns: seq<Json>, names: map<string, string>)
    ensures TruncationUpTo(rule, turns, names, map[], Slot(0, 0, 0))
  {
    hide Text, Shortened;
  }

  // ----- what a collapse means

  lemma CollapseReads(sha: Digest, turns: seq<Json>, w: Writes, a: Slot)
    requires IsCollapse(sha, turns, w)
    ensures Text(Written(turns, w), a)
            == if RepeatedLater(turns, a) then Some(Placeholder(sha(Text(turns, a).GetOr("")))) else Text(turns, a)
  {
    assert CollapsedAt(sha, turns, w, a);
    WrittenText(turns, w, a);
    hide Written, Text, Placeholder, RepeatedLater;
    if RepeatedLater(turns, a) {
      RepeatHasText(turns, a);
    }
  }

  lemma RepeatHasText(turns: seq<Json>, a: Slot)
    requires RepeatedLater(turns, a)
    ensures IsLarge(turns, a) && Text(turns, a).Some?
  {
    hide Text;
  }

  /** The last slot in document order with the text of a. */
  lemma {:induction false} LastCopy(turns: seq<Json>, a: Slot) returns (b: Slot)
    requires IsLarge(turns, a)
    ensures b == a || Repeats(turns, a, b)
    ensures Text(turns, b) == Text(turns, a) && IsLarge(turns, b) && !RepeatedLater(turns, b)
    decreases |turns| - a.turn, |ResultBlocks(turns[a.turn])| - a.block, Ranks(BlockAt(turns, a.turn, a.block)) - a.rank
  {
    SlotInRange(turns, a);
    b := a;
    if RepeatedLater(turns, a) {
      var c :| Repeats(turns, a, c);
      SlotInRange(turns, c);
      hide Text, ResultBlocks, BlockAt, Ranks;
      b := LastCopy(turns, c);
    }
  }

  lemma SlotInRange(turns: seq<Json>, a: Slot)
    requires Text(turns, a).Some?
    ensures a.turn < |turns| && a.block < |ResultBlocks(turns[a.turn])|
            && a.rank < Ranks(BlockAt(turns, a.turn, a.block))
  {
  }

  ghost predicate OnlyCopy(turns: seq<Json>, a: Slot) {
    forall c :: Text(turns, c) == Text(turns, a) ==> c == a
  }

  lemma OtherCopies(sha: Digest, turns: seq<Json>, w: Writes, last: Slot, c: Slot)
    requires IsCollapse(sha, turns, w) && IsLarge(turns, last) && !RepeatedLater(turns, last)
    requires Text(turns, c) == Text(turns, last) && c != last
    ensures Before(c, last) && Text(Written(turns, w), c) == Some(Placeholder(sha(Text(turns, last).value)))
  {
    CollapseReads(sha, turns, w, c);
    hide Text, Written, IsCollapse, Placeholder;
    assert Before(last, c) ==> Repeats(turns, last, c);
    assert Repeats(turns, c, last);
  }

  lemma NoOtherFullCopy(sha: Digest, turns: seq<Json>, w: Writes, last: Slot, c: Slot)
    requires IsCollapse(sha, turns, w) && IsLarge(turns, last) && !RepeatedLater(turns, last)
    requires Text(Written(turns, w), c) == Text(turns, last)
    ensures c == last
  {
    CollapseReads(sha, turns, w, c);
    hide Written, IsCollapse, Placeholder;
    if c != last && Text(turns, c) == Text(turns, last) {
      OtherCopies(sha, turns, w, last, c);
    }
    hide Text;
  }

  /** A large text survives exactly once, in the last slot that had it; the other copies, all earlier, point ahead to
      it. */
  lemma SurvivesOnce(sha: Digest, turns: seq<Json>, w: Writes, a: Slot) returns (last: Slot)
    requires IsCollapse(sha, turns, w) && IsLarge(turns, a)
    ensures Text(Written(turns, w), last) == Text(turns, last) == Text(turns, a)
    ensures OnlyCopy(Written(turns, w), last)
    ensures forall c :: Text(turns, c) == Text(turns, a) && c != last ==>
              Before(c, last) && Text(Written(turns, w), c) == Some(Placeholder(sha(Text(turns, a).value)))
  {
    last := LastCopy(turns, a);
    CollapseReads(sha, turns, w, last);
    hide Text, Written, IsCollapse, Placeholder, RepeatedLater, Before;
    forall c | Text(turns, c) == Text(turns, a) && c != last
      ensures Before(c, last) && Text(Written(turns, w), c) == Some(Placeholder(sha(Text(turns, a).value)))
    {
      OtherCopies(sha, turns, w, last, c);
    }
    forall c | Text(Written(turns, w), c) == Text(Written(turns, w), last) ensures c == last {
      NoOtherFullCopy(sha, turns, w, last, c);
    }
  }

  /** Collapsing again changes nothing. */
  lemma CollapseAgain(sha: Digest, turns: seq<Json>, w: Writes, w': Writes)
    requires IsCollapse(sha, turns, w) && IsCollapse(sha, Written(turns, w), w')
    ensures w' == map[]
    ensures Written(Written(turns, w), w') == Written(turns, w)
  {
    var after := Written(turns, w);
    NoWrite(after);
    hide Text, Written, Placeholder;
    forall a ensures a !in w' {
      assert CollapsedAt(sha, after, w', a);
      CollapseReads(sha, turns, w, a);
      forall b ensures !Repeats(after, a, b) {
        CollapseReads(sha, turns, w, b);
        assert Repeats(after, a, b) ==> Repeats(turns, a, b);
      }
    }
  }

  // ----- the whole stage

  /** `after` is `fields` with the messages, if it has a list of them, truncated and then collapsed. */
  ghost predicate Optimized(rule: Rule, sha: Digest, fields: seq<Field>, after: seq<Field>) {
    match Find(fields, "messages")
    case Some(Arr(turns)) => exists t, c :: OptimizedBy(rule, sha, fields, after, turns, t, c)
    case _ => after == fields
  }

  ghost predicate OptimizedBy(rule: Rule, sha: Digest, fields: seq<Field>, after: seq<Field>, turns: seq<Json>,
                              t: Writes, c: Writes) {
    && IsTruncation(rule, turns, t)
    && IsCollapse(sha, Written(turns, t), c)
    && after == Store(fields, "messages", Arr(Written(Written(turns, t), c)))
  }

  ghost predicate SafeDigest(rule: Rule, sha: Digest, turns: seq<Json>) {
    forall t :: IsTruncation(rule, turns, t) ==> NoCollision(sha, Written(turns, t))
  }

  method OptimizeTurns(rule: Rule, sha: Digest, turns: seq<Json>)
      returns (after: seq<Json>, ghost t: Writes, ghost c: Writes)
    requires SafeDigest(rule, sha, turns)
    ensures IsTruncation(rule, turns, t) && IsCollapse(sha, Written(turns, t), c)
            && after == Written(Written(turns, t), c)
  {
    hide IsTruncation, IsCollapse, NoCollision, Written, ToolNames;
    var messages := new Messages(turns);
    var names := BuildToolNames(turns);
    t := messages.TruncateOversized(rule, names);
    c := messages.CollapseRepeated(sha);
    after := messages.turns;
  }

  method Optimize(rule: Rule, sha: Digest, estimate: seq<Field> -> nat, body: PromptCache.Body)
      returns (tokens: nat, optimized: nat)
    requires SafeDigest(rule, sha, Items(Find(body.fields, "messages")))
    modifies body
    ensures Optimized(rule, sha, old(body.fields), body.fields)
    ensures tokens == estimate(old(body.fields)) && optimized == estimate(body.fields)
  {
    tokens := estimate(body.fields);
    hide IsTruncation, IsCollapse, SafeDigest, Written, Store;
    var field := Find(body.fields, "messages");
    if field.Some? && field.value.Arr? {
      ghost var fields, turns := body.fields, field.value.items;
      var after, t, c := OptimizeTurns(rule, sha, field.value.items);
      body.fields := Store(body.fields, "messages", Arr(after));
      assert OptimizedBy(rule, sha, fields, body.fields, turns, t, c);
    }
    optimized := estimate(body.fields);
  }

  /** SessionDedup.optimize with its own truncation rule. */
  method OptimizeBody(sha: Digest, estimate: seq<Field> -> nat, body: PromptCache.Body)
      returns (tokens: nat, optimized: nat)
    requires SafeDigest(ToolOutput.Truncated, sha, Items(Find(body.fields, "messages")))
    modifies body
    ensures Optimized(ToolOutput.Truncated, sha, old(body.fields), body.fields)
    ensures tokens == estimate(old(body.fields)) && optimized == estimate(body.fields)
  {
    hide Optimized, SafeDigest;
    tokens, optimized := Optimize(ToolOutput.Truncated, sha, estimate, body);
  }

  lemma WritesUnique(rule: Rule, sha: Digest, turns: seq<Json>, t: Writes, t': Writes, c: Writes, c': Writes)
    ensures IsTruncation(rule, turns, t) && IsTruncation(rule, turns, t') ==> t == t'
    ensures IsCollapse(sha, turns, c) && IsCollapse(sha, turns, c') ==> c == c'
  {
    hide IsLong, Shortened, RepeatedLater, Placeholder, ToolNames;
    var end := Slot(|turns|, 0, 0);
    if IsTruncation(rule, turns, t) && IsTruncation(rule, turns, t') {
      forall a ensures a in t <==> a in t' {
        assert TruncatedAt(rule, turns, ToolNames(turns), t, end, a)
               && TruncatedAt(rule, turns, ToolNames(turns), t', end, a);
      }
      forall a | a in t ensures t[a] == t'[a] {
        assert TruncatedAt(rule, turns, ToolNames(turns), t, end, a)
               && TruncatedAt(rule, turns, ToolNames(turns), t', end, a);
      }
      assert t == t';
    }
    if IsCollapse(sha, turns, c) && IsCollapse(sha, turns, c') {
      forall a ensures a in c <==> a in c' {
        assert CollapsedAt(sha, turns, c, a) && CollapsedAt(sha, turns, c', a);
      }
      forall a | a in c ensures c[a] == c'[a] {
        assert CollapsedAt(sha, turns, c, a) && CollapsedAt(sha, turns, c', a);
      }
      assert c == c';
    }
  }

  /** The outcome depends on the body alone, so a resend of the same body is sent the same. */
  lemma OptimizeIsDeterministic(rule: Rule, sha: Digest, fields: seq<Field>, after: seq<Field>, again: seq<Field>)
    requires Optimized(rule, sha, fields, after) && Optimized(rule, sha, fields, again)
    ensures after == again
  {
    hide IsTruncation, IsCollapse, Written, Store;
    match Find(fields, "messages")
    case Some(Arr(turns)) =>
      var t, c :| OptimizedBy(rule, sha, fields, after, turns, t, c);
      var t', c' :| OptimizedBy(rule, sha, fields, again, turns, t', c');
      WritesUnique(rule, sha, turns, t, t', c, c');
      WritesUnique(rule, sha, Written(turns, t), t, t', c, c');
    case _ =>
  }

  /** Only the messages change, and no cache_control marker is added or lost. */
  lemma OptimizeKeeps(rule: Rule, sha: Digest, fields: seq<Field>, after: seq<Field>, key: string)
    requires Optimized(rule, sha, fields, after)
    ensures key != "messages" ==> Find(after, key) == Find(fields, key)
    ensures Markers(Obj(after)) == Markers(Obj(fields))
  {
    hide IsTruncation, IsCollapse, Written, Store;
    match Find(fields, "messages")
    case Some(Arr(turns)) =>
      var t, c :| OptimizedBy(rule, sha, fields, after, turns, t, c);
      var final := Written(Written(turns, t), c);
      WrittenMarkers(turns, t);
      WrittenMarkers(Written(turns, t), c);
      hide Markers, Find;
      FindStore(fields, "messages", Arr(final), key);
      PutMarkers(Obj(fields), "messages", Arr(final));
    case _ =>
  }

  // ----- beside PromptCacheInjection

  lemma MarkAtBesideMessages(fields: seq<Field>, key: string, messages: Json)
    requires key != "messages" && Find(fields, "messages").Some?
    ensures PromptCache.MarkAt(Store(fields, "messages", messages), key)
            == match PromptCache.MarkAt(fields, key)
               case Some(marked) => Some(Store(marked, "messages", messages))
               case None => None
  {
    var j := Find(fields, key);
    FindStore(fields, "messages", messages, key);
    hide Find, Store, PromptCache.Marked;
    if PromptCache.Markable(j, key == "system") && !PromptCache.Raises(j) {
      StoresCommute(fields, key, PromptCache.Marked(j.value), "messages", messages);
    }
  }

  lemma InjectBesideMessages(fields: seq<Field>, messages: Json)
    requires Find(fields, "messages").Some?
    requires Markers(Obj(Store(fields, "messages", messages))) == Markers(Obj(fields))
    ensures PromptCache.Injected(Store(fields, "messages", messages))
            == match PromptCache.Injected(fields)
               case Some(marked) => Some(Store(marked, "messages", messages))
               case None => None
  {
    hide PromptCache.MarkAt, Markers, Store, Find;
    MarkAtBesideMessages(fields, "system", messages);
    var system := PromptCache.MarkAt(fields, "system");
    if system.Some? {
      PromptCache.MarkAtFinds(fields, "system", "messages");
      MarkAtBesideMessages(system.value, "tools", messages);
    }
  }

  lemma InjectKeepsMessages(fields: seq<Field>)
    requires PromptCache.Injected(fields).Some?
    ensures Find(PromptCache.Injected(fields).value, "messages") == Find(fields, "messages")
  {
    hide PromptCache.Injected, Find, PromptCache.SameButMarker;
    if Find(PromptCache.Injected(fields).value, "messages") != Find(fields, "messages") {
      PromptCache.InjectOnlyMarks(fields, "messages");
    }
  }

  /** The two stages commute: marking an optimized body is the same as optimizing a marked one, and raises when it
      would. */
  lemma InjectCommutes(rule: Rule, sha: Digest, fields: seq<Field>, after: seq<Field>)
    requires Optimized(rule, sha, fields, after)
    ensures PromptCache.Injected(after).Some? <==> PromptCache.Injected(fields).Some?
    ensures PromptCache.Injected(fields).Some? ==>
              Optimized(rule, sha, PromptCache.Injected(fields).value, PromptCache.Injected(after).value)
  {
    OptimizeKeeps(rule, sha, fields, after, "messages");
    hide IsTruncation, IsCollapse, Written, Store, Find, Markers, PromptCache.Injected;
    var injected := PromptCache.Injected(fields);
    if injected.Some? {
      InjectKeepsMessages(fields);
    }
    match Find(fields, "messages")
    case Some(Arr(turns)) =>
      var t, c :| OptimizedBy(rule, sha, fields, after, turns, t, c);
      InjectBesideMessages(fields, Arr(Written(Written(turns, t), c)));
      if injected.Some? {
        assert OptimizedBy(rule, sha, injected.value, PromptCache.Injected(after).value, turns, t, c);
      }
    case _ =>
  }
}

/** The tool_result texts of a message list as stages.py walks and rewrites them: where they are, and what a write
    leaves alone. */
module ToolResults {
  import opened Wrappers
  import opened Json

  // Where a tool_result keeps text. Rank 0 is the block's own string content, rank k + 1 the k-th part of a content
  // list.
  // Addresses in lexicographic order are slots in document order.
  datatype Slot = Slot(turn: nat, block: nat, rank: nat)

  predicate Before(a: Slot, b: Slot) {
    a.turn < b.turn || (a.turn == b.turn && (a.block < b.block || (a.block == b.block && a.rank < b.rank)))
  }

  // ----- reading the tree

  function Items(j: Option<Json>): seq<Json> {
    if j.Some? && j.value.Arr? then j.value.items else []
  }

  predicate IsUser(turn: Json) {
    Get(turn, "role") == Some(Str("user"))
  }

  predicate IsToolResult(block: Json) {
    Get(block, "type") == Some(Str("tool_result"))
  }

  function ResultBlocks(turn: Json): seq<Json> {
    if IsUser(turn) then Items(Get(turn, "content")) else []
  }

  function PartText(part: Json): Option<string> {
    match Get(part, "text")
    case Some(Str(s)) => if Get(part, "type") == Some(Str("text")) then Some(s) else None
    case _ => None
  }

  function BlockText(block: Json, rank: nat): Option<string> {
    if !IsToolResult(block) then None
    else match Get(block, "content")
      case Some(Str(s)) => if rank == 0 then Some(s) else None
      case Some(Arr(parts)) => if 1 <= rank <= |parts| then PartText(parts[rank - 1]) else None
      case _ => None
  }

  function TurnText(turn: Json, block: nat, rank: nat): Option<string> {
    var blocks := ResultBlocks(turn);
    if block < |blocks| then BlockText(blocks[block], rank) else None
  }

  function BlockAt(turns: seq<Json>, i: nat, j: nat): Json {
    if i < |turns| && j < |ResultBlocks(turns[i])| then ResultBlocks(turns[i])[j] else Null
  }

  function Text(turns: seq<Json>, a: Slot): Option<string> {
    if a.turn < |turns| then TurnText(turns[a.turn], a.block, a.rank) else None
  }

  /** Which texts are slots: those of tool_result blocks of user turns, as the content itself or in its text parts. No
      other text of the conversation is one. */
  lemma SlotMeaning(turns: seq<Json>, a: Slot, s: string)
    ensures Text(turns, a) == Some(s) <==>
              && a.turn < |turns| && Get(turns[a.turn], "role") == Some(Str("user"))
              && exists blocks :: Get(turns[a.turn], "content") == Some(Arr(blocks)) && IsSlotOf(blocks, a, s)
  {
    hide Get, BlockText, IsSlotOf;
    if a.turn < |turns| && a.block < |ResultBlocks(turns[a.turn])| {
      BlockSlot(ResultBlocks(turns[a.turn]), a, s);
    }
    forall blocks | IsSlotOf(blocks, a, s) ensures a.block < |blocks| {
      SlotInside(blocks, a, s);
    }
  }

  lemma SlotInside(blocks: seq<Json>, a: Slot, s: string)
    requires IsSlotOf(blocks, a, s)
    ensures a.block < |blocks|
  {
  }

  lemma BlockSlot(blocks: seq<Json>, a: Slot, s: string)
    requires a.block < |blocks|
    ensures BlockText(blocks[a.block], a.rank) == Some(s) <==> IsSlotOf(blocks, a, s)
  {
    hide Get;
  }

  ghost predicate IsSlotOf(blocks: seq<Json>, a: Slot, s: string) {
    && a.block < |blocks| && Get(blocks[a.block], "type") == Some(Str("tool_result"))
    && if a.rank == 0 then Get(blocks[a.block], "content") == Some(Str(s))
       else exists parts :: Get(blocks[a.block], "content") == Some(Arr(parts)) && a.rank - 1 < |parts|
                            && Get(parts[a.rank - 1], "type") == Some(Str("text"))
                            && Get(parts[a.rank - 1], "text") == Some(Str(s))
  }

  // ----- writing one slot

  function SetBlock(block: Json, rank: nat, text: string): Json {
    if rank == 0 then Put(block, "content", Str(text))
    else
      var parts := Items(Get(block, "content"));
      if rank > |parts| then block
      else Put(block, "content", Arr(parts[rank - 1 := Put(parts[rank - 1], "text", Str(text))]))
  }

  function SetTurn(turn: Json, block: nat, rank: nat, text: string): Json {
    var blocks := ResultBlocks(turn);
    if block < |blocks| then Put(turn, "content", Arr(blocks[block := SetBlock(blocks[block], rank, text)])) else turn
  }

  function SetText(turns: seq<Json>, a: Slot, text: string): (r: seq<Json>)
    ensures |r| == |turns|
  {
    if a.turn < |turns| then turns[a.turn := SetTurn(turns[a.turn], a.block, a.rank, text)] else turns
  }

  // ----- writing many: the tree with the texts of w in place of its own, and nothing else changed

  type Writes = map<Slot, string>

  function WrittenPart(part: Json, a: Slot, w: Writes): Json {
    if a in w && PartText(part).Some? then Put(part, "text", Str(w[a])) else part
  }

  function WrittenParts(parts: seq<Json>, i: nat, j: nat, w: Writes): seq<Json> {
    seq(|parts|, k requires 0 <= k < |parts| => WrittenPart(parts[k], Slot(i, j, k + 1), w))
  }

  function WrittenBlock(block: Json, i: nat, j: nat, w: Writes): Json {
    if !IsToolResult(block) then block
    else match Get(block, "content")
      case Some(Str(s)) => if Slot(i, j, 0) in w then Put(block, "content", Str(w[Slot(i, j, 0)])) else block
      case Some(Arr(parts)) => Put(block, "content", Arr(WrittenParts(parts, i, j, w)))
      case _ => block
  }

  function WrittenBlocks(blocks: seq<Json>, i: nat, w: Writes): seq<Json> {
    seq(|blocks|, j requires 0 <= j < |blocks| => WrittenBlock(blocks[j], i, j, w))
  }

  function WrittenTurn(turn: Json, i: nat, w: Writes): Json {
    if ResultBlocks(turn) == [] then turn else Put(turn, "content", Arr(WrittenBlocks(ResultBlocks(turn), i, w)))
  }

  function Written(turns: seq<Json>, w: Writes): seq<Json> {
    seq(|turns|, i requires 0 <= i < |turns| => WrittenTurn(turns[i], i, w))
  }

  // ----- what a written tree reads

  lemma WrittenPartText(part: Json, a: Slot, w: Writes)
    ensures PartText(WrittenPart(part, a, w)) == if a in w && PartText(part).Some? then Some(w[a]) else PartText(part)
  {
    if a in w && PartText(part).Some? {
      GetPut(part, "text", Str(w[a]), "text");
      GetPut(part, "text", Str(w[a]), "type");
    }
  }

  ghost predicate ReadsWritten(a: Slot, w: Writes, before: Option<string>, after: Option<string>) {
    after == if a in w && before.Some? then Some(w[a]) else before
  }

  lemma WrittenBlockText(block: Json, i: nat, j: nat, w: Writes, rank: nat)
    ensures IsToolResult(WrittenBlock(block, i, j, w)) == IsToolResult(block)
    ensures ReadsWritten(Slot(i, j, rank), w, BlockText(block, rank), BlockText(WrittenBlock(block, i, j, w), rank))
  {
    hide Get, Put, PartText, WrittenPart;
    if IsToolResult(block) {
      ToolResultIsObj(block);
      match Get(block, "content")
      case Some(Str(s)) =>
        if Slot(i, j, 0) in w {
          GetPut(block, "content", Str(w[Slot(i, j, 0)]), "content");
          GetPut(block, "content", Str(w[Slot(i, j, 0)]), "type");
        }
      case Some(Arr(parts)) =>
        GetPut(block, "content", Arr(WrittenParts(parts, i, j, w)), "content");
        GetPut(block, "content", Arr(WrittenParts(parts, i, j, w)), "type");
        if 1 <= rank <= |parts| {
          WrittenPartText(parts[rank - 1], Slot(i, j, rank), w);
        }
      case _ =>
    }
  }

  lemma ToolResultIsObj(block: Json)
    ensures IsToolResult(block) || IsUser(block) ==> block.Obj?
  {
  }

  lemma WrittenTurnBlocks(turn: Json, i: nat, w: Writes)
    ensures IsUser(WrittenTurn(turn, i, w)) == IsUser(turn)
    ensures ResultBlocks(WrittenTurn(turn, i, w)) == WrittenBlocks(ResultBlocks(turn), i, w)
  {
    hide Get, Put, WrittenBlock;
    if ResultBlocks(turn) != [] {
      ToolResultIsObj(turn);
      var blocks := Arr(WrittenBlocks(ResultBlocks(turn), i, w));
      GetPut(turn, "content", blocks, "content");
      GetPut(turn, "content", blocks, "role");
    }
  }

  lemma WrittenText(turns: seq<Json>, w: Writes, a: Slot)
    ensures ReadsWritten(a, w, Text(turns, a), Text(Written(turns, w), a))
  {
    hide ResultBlocks, WrittenTurn, WrittenBlock, BlockText;
    if a.turn < |turns| {
      var blocks := ResultBlocks(turns[a.turn]);
      WrittenTurnBlocks(turns[a.turn], a.turn, w);
      if a.block < |blocks| {
        WrittenBlockText(blocks[a.block], a.turn, a.block, w, a.rank);
      }
    }
  }

  // ----- one more write, no write, and the marker count

  lemma SetWrittenBlock(block: Json, i: nat, j: nat, rank: nat, w: Writes, text: string)
    requires BlockText(block, rank).Some?
    ensures SetBlock(WrittenBlock(block, i, j, w), rank, text) == WrittenBlock(block, i, j, w[Slot(i, j, rank) := text])
  {
    ToolResultIsObj(block);
    hide Get, Put;
    var w' := w[Slot(i, j, rank) := text];
    match Get(block, "content")
    case Some(Str(s)) =>
      if Slot(i, j, 0) in w {
        PutPut(block, "content", Str(w[Slot(i, j, 0)]), Str(text));
      }
    case Some(Arr(parts)) =>
      var before, after := WrittenParts(parts, i, j, w), WrittenParts(parts, i, j, w');
      GetPut(block, "content", Arr(before), "content");
      PutPut(block, "content", Arr(before), Arr(after));
      SetWrittenPart(parts[rank - 1], Slot(i, j, rank), w, text);
      assert after == before[rank - 1 := Put(before[rank - 1], "text", Str(text))];
  }

  lemma SetWrittenPart(part: Json, a: Slot, w: Writes, text: string)
    requires PartText(part).Some?
    ensures Put(WrittenPart(part, a, w), "text", Str(text)) == WrittenPart(part, a, w[a := text])
  {
    if a in w {
      PutPut(part, "text", Str(w[a]), Str(text));
    }
  }

  lemma OtherBlock(block: Json, i: nat, j: nat, w: Writes, a: Slot, text: string)
    requires a.turn != i || a.block != j
    ensures WrittenBlock(block, i, j, w[a := text]) == WrittenBlock(block, i, j, w)
  {
    hide Get, Put, PartText;
    match Get(block, "content")
    case Some(Arr(parts)) =>
      assert WrittenParts(parts, i, j, w[a := text]) == WrittenParts(parts, i, j, w);
    case _ =>
  }

  lemma SetWrittenTurn(turn: Json, i: nat, block: nat, rank: nat, w: Writes, text: string)
    requires TurnText(turn, block, rank).Some?
    ensures SetTurn(WrittenTurn(turn, i, w), block, rank, text) == WrittenTurn(turn, i, w[Slot(i, block, rank) := text])
  {
    var blocks, w' := ResultBlocks(turn), w[Slot(i, block, rank) := text];
    WrittenTurnBlocks(turn, i, w);
    SetWrittenBlock(blocks[block], i, block, rank, w, text);
    hide Get, Put, WrittenBlock, SetBlock, BlockText, ResultBlocks;
    var before, after := WrittenBlocks(blocks, i, w), WrittenBlocks(blocks, i, w');
    forall j | 0 <= j < |blocks| ensures after[j] == before[block := SetBlock(before[block], rank, text)][j] {
      if j != block {
        OtherBlock(blocks[j], i, j, w, Slot(i, block, rank), text);
      }
    }
    assert after == before[block := SetBlock(before[block], rank, text)];
    PutPut(turn, "content", Arr(before), Arr(after));
  }

  lemma OtherTurn(turn: Json, i: nat, w: Writes, a: Slot, text: string)
    requires a.turn != i
    ensures WrittenTurn(turn, i, w[a := text]) == WrittenTurn(turn, i, w)
  {
    hide Put, WrittenBlock, ResultBlocks;
    var blocks := ResultBlocks(turn);
    forall j | 0 <= j < |blocks| ensures WrittenBlock(blocks[j], i, j, w[a := text])
        == WrittenBlock(blocks[j], i, j, w) {
      OtherBlock(blocks[j], i, j, w, a, text);
    }
    assert WrittenBlocks(blocks, i, w[a := text]) == WrittenBlocks(blocks, i, w);
  }

  /** Writing one more slot of a tree already written. */
  lemma SetWritten(turns: seq<Json>, w: Writes, a: Slot, text: string)
    requires Text(turns, a).Some?
    ensures SetText(Written(turns, w), a, text) == Written(turns, w[a := text])
  {
    SetWrittenTurn(turns[a.turn], a.turn, a.block, a.rank, w, text);
    hide WrittenTurn, SetTurn, TurnText;
    var after := Written(turns, w[a := text]);
    forall i | 0 <= i < |turns| ensures SetText(Written(turns, w), a, text)[i] == after[i] {
      if i != a.turn {
        OtherTurn(turns[i], i, w, a, text);
      }
    }
  }

  lemma NoWriteBlock(block: Json, i: nat, j: nat)
    ensures WrittenBlock(block, i, j, map[]) == block
  {
    hide Get, Put, PartText;
    match Get(block, "content")
    case Some(Arr(parts)) =>
      assert WrittenParts(parts, i, j, map[]) == parts;
      PutGet(block, "content");
    case _ =>
  }

  lemma NoWrite(turns: seq<Json>)
    ensures Written(turns, map[]) == turns
  {
    hide WrittenBlock, Get, Put;
    forall i | 0 <= i < |turns| ensures WrittenTurn(turns[i], i, map[]) == turns[i] {
      var blocks := ResultBlocks(turns[i]);
      if blocks != [] {
        forall j | 0 <= j < |blocks| ensures WrittenBlock(blocks[j], i, j, map[]) == blocks[j] {
          NoWriteBlock(blocks[j], i, j);
        }
        assert WrittenBlocks(blocks, i, map[]) == blocks;
        PutGet(turns[i], "content");
      }
    }
  }

  lemma WrittenPartMarkers(part: Json, a: Slot, w: Writes)
    ensures Markers(WrittenPart(part, a, w)) == Markers(part)
  {
    if a in w && PartText(part).Some? {
      PutMarkers(part, "text", Str(w[a]));
    }
  }

  lemma WrittenBlockMarkers(block: Json, i: nat, j: nat, w: Writes)
    ensures Markers(WrittenBlock(block, i, j, w)) == Markers(block)
  {
    ToolResultIsObj(block);
    hide Get, Put, PartText, WrittenPart;
    if IsToolResult(block) {
      match Get(block, "content")
      case Some(Str(s)) =>
        PutMarkers(block, "content", Str(if Slot(i, j, 0) in w then w[Slot(i, j, 0)] else s));
      case Some(Arr(parts)) =>
        var after := WrittenParts(parts, i, j, w);
        forall k | 0 <= k < |parts| ensures Markers(after[k]) == Markers(parts[k]) {
          WrittenPartMarkers(parts[k], Slot(i, j, k + 1), w);
        }
        SameMarkers(parts, after);
        PutMarkers(block, "content", Arr(after));
      case _ =>
    }
  }

  lemma WrittenTurnMarkers(turn: Json, i: nat, w: Writes)
    ensures Markers(WrittenTurn(turn, i, w)) == Markers(turn)
  {
    ToolResultIsObj(turn);
    hide Get, Put, WrittenBlock;
    var blocks := ResultBlocks(turn);
    if blocks != [] {
      var after := WrittenBlocks(blocks, i, w);
      forall j | 0 <= j < |blocks| ensures Markers(after[j]) == Markers(blocks[j]) {
        WrittenBlockMarkers(blocks[j], i, j, w);
      }
      SameMarkers(blocks, after);
      PutMarkers(turn, "content", Arr(after));
    }
  }

  /** Rewriting texts leaves the cache_control markers alone. */
  lemma WrittenMarkers(turns: seq<Json>, w: Writes)
    ensures Markers(Arr(Written(turns, w))) == Markers(Arr(turns))
  {
    hide WrittenTurn;
    forall i | 0 <= i < |turns| ensures Markers(Written(turns, w)[i]) == Markers(turns[i]) {
      WrittenTurnMarkers(turns[i], i, w);
    }
    SameMarkers(turns, Written(turns, w));
  }

  /** A write leaves every turn of another role alone, and every block of another type. */
  lemma OthersLeftAlone(turns: seq<Json>, w: Writes, i: nat, j: nat)
    requires i < |turns|
    ensures Get(turns[i], "role") != Some(Str("user")) ==> Written(turns, w)[i] == turns[i]
    ensures var blocks, after := Items(Get(turns[i], "content")), Items(Get(Written(turns, w)[i], "content"));
            j < |blocks| && Get(blocks[j], "type") != Some(Str("tool_result")) ==> j < |after| && after[j] == blocks[j]
  {
    hide Get, Put, WrittenBlock;
    if ResultBlocks(turns[i]) != [] {
      ToolResultIsObj(turns[i]);
      GetPut(turns[i], "content", Arr(WrittenBlocks(ResultBlocks(turns[i]), i, w)), "content");
      OtherBlockAlone(ResultBlocks(turns[i]), i, j, w);
    }
  }

  lemma OtherBlockAlone(blocks: seq<Json>, i: nat, j: nat, w: Writes)
    ensures j < |blocks| && Get(blocks[j], "type") != Some(Str("tool_result")) ==>
              WrittenBlocks(blocks, i, w)[j] == blocks[j]
  {
    hide Get, Put;
  }
}

/** Redaction of a whole message body: redactWithRules from shield-core.js applied by mapLeaves and redactJsonBody from
    content.js. One numbering is threaded through every leaf and every rule. */
module ShieldBody {
  import opened Wrappers
  import opened Json
  import opened PrivateKeys

  const MaxDepth: nat := 64

  // A rule cuts a text into pieces: what its expression (or the key search) matched, and what lies between.
  datatype Rule = Rule(name: string, flag: bool, tag: string, pieces: string -> seq<Piece>, passes: string -> bool)

  // `skips` says which string values are ids or inline payloads, by key and value.
  datatype Shield = Shield(rules: seq<Rule>, names: set<string>, skips: (string, string) -> bool) {
    predicate Applies(r: Rule) {
      !r.flag && r.name in names
    }
  }

  ghost predicate ValidRule(r: Rule) {
    forall text :: Source(r.pieces(text)) == text
  }

  /** A rule that cuts as the private key search does, or, with no END lines, as plain replacement of matches does. */
  ghost predicate CutsAtMatches(r: Rule, headers: string -> seq<Span>, endLine: string -> EndLine) {
    forall text :: ValidHeaders(text, headers(text)) && ValidEndLine(text, endLine(text))
                   && r.pieces(text) == Pieces(text, headers(text), endLine(text))
  }

  lemma CutsAreValid(r: Rule, headers: string -> seq<Span>, endLine: string -> EndLine)
    requires CutsAtMatches(r, headers, endLine)
    ensures ValidRule(r)
  {
    forall text ensures Source(r.pieces(text)) == text {
      assert ValidHeaders(text, headers(text)) && ValidEndLine(text, endLine(text));
      assert r.pieces(text) == Pieces(text, headers(text), endLine(text));
      PiecesTile(text, headers(text), endLine(text));
    }
  }

  /** Without END lines each match is a piece of its own. */
  lemma PlainReplacement(text: string, h: Span, endLine: EndLine)
    requires forall i: nat :: endLine(i).None?
    ensures KeyStop(text, endLine, h.Stop()) == h.Stop()
  {
  }

  // Under each label, the values replaced so far and their numbers.
  type Numbers = map<string, map<string, nat>>

  function For(numbers: Numbers, tag: string): map<string, nat> {
    if tag in numbers then numbers[tag] else map[]
  }

  ghost predicate AllNumberings(numbers: Numbers) {
    forall tag :: Numbered(For(numbers, tag))
  }

  ghost predicate Grows(a: Numbers, b: Numbers) {
    forall tag :: Extends(For(a, tag), For(b, tag))
  }

  ghost predicate Extends(a: map<string, nat>, b: map<string, nat>) {
    forall m :: m in a ==> m in b && a[m] == b[m]
  }

  // ----- one text, under a numbering already known

  function RuleText(r: Rule, text: string, numbers: Numbers): string {
    Render(r.pieces(text), r.passes, r.tag, For(numbers, r.tag))
  }

  /** The text after the first n rules. */
  function RulesText(s: Shield, n: nat, text: string, numbers: Numbers): string
    requires n <= |s.rules|
  {
    if n == 0 then text
    else
      var before, r := RulesText(s, n - 1, text, numbers), s.rules[n - 1];
      if s.Applies(r) then RuleText(r, before, numbers) else before
  }

  function LeafText(s: Shield, text: string, numbers: Numbers): string {
    RulesText(s, |s.rules|, text, numbers)
  }

  predicate Accepts(pieces: seq<Piece>, passes: string -> bool) {
    exists k :: 0 <= k < |pieces| && IsHit(pieces[k], passes)
  }

  predicate IsHit(p: Piece, passes: string -> bool) {
    p.Key? && passes(p.s)
  }

  /** The rules among the first n that replace something in the text. */
  function RulesHit(s: Shield, n: nat, text: string, numbers: Numbers): set<string>
    requires n <= |s.rules|
  {
    if n == 0 then {}
    else
      var r := s.rules[n - 1];
      RulesHit(s, n - 1, text, numbers)
      + if s.Applies(r) && Accepts(r.pieces(RulesText(s, n - 1, text, numbers)), r.passes) then {r.name} else {}
  }

  /** Everything the first n rules replace has a number. */
  ghost predicate TextNumbered(s: Shield, n: nat, text: string, numbers: Numbers)
    requires n <= |s.rules|
  {
    n > 0 ==>
      var r := s.rules[n - 1];
      && TextNumbered(s, n - 1, text, numbers)
      && (s.Applies(r) ==> AllNumbered(r.pieces(RulesText(s, n - 1, text, numbers)), r.passes, For(numbers, r.tag)))
  }

  lemma {:induction false} TextStays(s: Shield, n: nat, text: string, a: Numbers, b: Numbers)
    requires n <= |s.rules| && Grows(a, b) && TextNumbered(s, n, text, a)
    ensures RulesText(s, n, text, b) == RulesText(s, n, text, a)
    ensures RulesHit(s, n, text, b) == RulesHit(s, n, text, a)
    ensures TextNumbered(s, n, text, b)
  {
    if n > 0 {
      TextStays(s, n - 1, text, a, b);
      var r := s.rules[n - 1];
      assert Extends(For(a, r.tag), For(b, r.tag));
      hide Render, AllNumbered;
      if s.Applies(r) {
        NumbersStay(r.pieces(RulesText(s, n - 1, text, a)), r.passes, r.tag, For(a, r.tag), For(b, r.tag));
      }
    }
  }

  lemma {:induction false} RenderNothing(pieces: seq<Piece>, passes: string -> bool, tag: string,
                                         numbers: map<string, nat>)
    requires !Accepts(pieces, passes)
    ensures Render(pieces, passes, tag, numbers) == Source(pieces)
  {
    if pieces != [] {
      var n := |pieces| - 1;
      assert !IsHit(pieces[n], passes);
      forall k | 0 <= k < n ensures !IsHit(pieces[..n][k], passes) {
        assert !IsHit(pieces[k], passes);
      }
      RenderNothing(pieces[..n], passes, tag, numbers);
    }
  }

  /** A text no rule hits is unchanged. */
  lemma {:induction false} NoHitNoChange(s: Shield, n: nat, text: string, numbers: Numbers)
    requires n <= |s.rules| && forall r :: r in s.rules ==> ValidRule(r)
    requires RulesHit(s, n, text, numbers) == {}
    ensures RulesText(s, n, text, numbers) == text
  {
    if n > 0 {
      var r := s.rules[n - 1];
      NoHitNoChange(s, n - 1, text, numbers);
      if s.Applies(r) {
        assert r.name !in RulesHit(s, n, text, numbers);
        assert ValidRule(r);
        RenderNothing(r.pieces(text), r.passes, r.tag, For(numbers, r.tag));
      }
    }
  }

  // ----- the numbering, by first sight

  function SeeValue(numbers: Numbers, tag: string, m: string): Numbers {
    var seen := For(numbers, tag);
    numbers[tag := if m in seen then seen else seen[m := |seen| + 1]]
  }

  function SeePieces(r: Rule, pieces: seq<Piece>, numbers: Numbers): Numbers {
    if pieces == [] then numbers
    else
      var before, p := SeePieces(r, pieces[..|pieces| - 1], numbers), pieces[|pieces| - 1];
      if IsHit(p, r.passes) then SeeValue(before, r.tag, p.s) else before
  }

  /** The numbering once the first n rules have gone over a text, each over what the ones before it left. */
  function SeeText(s: Shield, n: nat, text: string, numbers: Numbers): Numbers
    requires n <= |s.rules|
  {
    if n == 0 then numbers
    else
      var before, r := SeeText(s, n - 1, text, numbers), s.rules[n - 1];
      if s.Applies(r) then SeePieces(r, r.pieces(RulesText(s, n - 1, text, before)), before) else before
  }

  function SeeLeaves(s: Shield, leaves: seq<string>, numbers: Numbers): Numbers {
    if leaves == [] then numbers
    else SeeText(s, |s.rules|, leaves[|leaves| - 1], SeeLeaves(s, leaves[..|leaves| - 1], numbers))
  }

  lemma {:induction false} SeeLeavesConcat(s: Shield, a: seq<string>, b: seq<string>, numbers: Numbers)
    ensures SeeLeaves(s, a + b, numbers) == SeeLeaves(s, b, SeeLeaves(s, a, numbers))
  {
    hide SeeText;
    if b == [] {
      assert a + b == a;
    } else {
      SeeLeavesConcat(s, a, b[..|b| - 1], numbers);
      Front(a, b);
    }
  }

  lemma RuleNext(s: Shield, k: nat, text: string, was: Numbers, a: Numbers, b: Numbers)
    requires k < |s.rules| && s.Applies(s.rules[k]) && Grows(a, b)
    requires a == SeeText(s, k, text, was) && TextNumbered(s, k, text, a)
    requires var r, before := s.rules[k], RulesText(s, k, text, a);
             b == SeePieces(r, r.pieces(before), a) && AllNumbered(r.pieces(before), r.passes, For(b, r.tag))
    ensures b == SeeText(s, k + 1, text, was) && TextNumbered(s, k + 1, text, b)
    ensures var r, before := s.rules[k], RulesText(s, k, text, a);
            && RulesText(s, k + 1, text, b) == RuleText(r, before, b)
            && RulesHit(s, k + 1, text, b)
               == RulesHit(s, k, text, a) + if Accepts(r.pieces(before), r.passes) then {r.name} else {}
  {
    hide RuleText, AllNumbered, Accepts, SeePieces;
    TextStays(s, k, text, a, b);
    hide Grows;
  }

  lemma RuleSkipped(s: Shield, k: nat, text: string, was: Numbers, a: Numbers)
    requires k < |s.rules| && !s.Applies(s.rules[k])
    ensures SeeText(s, k + 1, text, was) == SeeText(s, k, text, was)
            && RulesText(s, k + 1, text, a) == RulesText(s, k, text, a)
    ensures TextNumbered(s, k + 1, text, a) == TextNumbered(s, k, text, a)
    ensures RulesHit(s, k + 1, text, a) == RulesHit(s, k, text, a)
  {
    hide RuleText, AllNumbered, Accepts, SeePieces;
  }

  // ----- the whole body, under a numbering already known

  predicate IsLeaf(s: Shield, inArray: bool, key: string, j: Json) {
    j.Str? && (inArray || !s.skips(key, j.s))
  }

  function MapNode(s: Shield, node: Json, depth: nat, numbers: Numbers): Json
    decreases node, 0
  {
    if depth > MaxDepth then node
    else match node
      case Arr(items) => Arr(MapItems(s, items, depth, numbers))
      case Obj(fields) => Obj(MapFields(s, fields, depth, numbers))
      case _ => node
  }

  function MapValue(s: Shield, inArray: bool, key: string, j: Json, depth: nat, numbers: Numbers): Json
    decreases j, 1
  {
    if IsLeaf(s, inArray, key, j) then Str(LeafText(s, j.s, numbers))
    else if j.Str? then j
    else MapNode(s, j, depth + 1, numbers)
  }

  function MapItems(s: Shield, items: seq<Json>, depth: nat, numbers: Numbers): (r: seq<Json>)
    ensures |r| == |items|
    decreases items
  {
    if items == [] then []
    else MapItems(s, items[..|items| - 1], depth, numbers) + [MapValue(s, true, "", items[|items| - 1], depth, numbers)]
  }

  function MapFields(s: Shield, fields: seq<Field>, depth: nat, numbers: Numbers): (r: seq<Field>)
    ensures |r| == |fields|
    decreases fields
  {
    if fields == [] then []
    else
      var f := fields[|fields| - 1];
      MapFields(s, fields[..|fields| - 1], depth, numbers)
          + [Field(f.key, MapValue(s, false, f.key, f.value, depth, numbers))]
  }

  /** The strings that are rewritten, in the order they are visited. */
  function NodeLeaves(s: Shield, node: Json, depth: nat): seq<string>
    decreases node, 0
  {
    if depth > MaxDepth then []
    else match node
      case Arr(items) => ItemLeaves(s, items, depth)
      case Obj(fields) => FieldLeaves(s, fields, depth)
      case _ => []
  }

  function ValueLeaves(s: Shield, inArray: bool, key: string, j: Json, depth: nat): seq<string>
    decreases j, 1
  {
    if IsLeaf(s, inArray, key, j) then [j.s] else if j.Str? then [] else NodeLeaves(s, j, depth + 1)
  }

  function ItemLeaves(s: Shield, items: seq<Json>, depth: nat): seq<string>
    decreases items
  {
    if items == [] then []
    else ItemLeaves(s, items[..|items| - 1], depth) + ValueLeaves(s, true, "", items[|items| - 1], depth)
  }

  function FieldLeaves(s: Shield, fields: seq<Field>, depth: nat): seq<string>
    decreases fields
  {
    if fields == [] then []
    else
      var f := fields[|fields| - 1];
      FieldLeaves(s, fields[..|fields| - 1], depth) + ValueLeaves(s, false, f.key, f.value, depth)
  }

  ghost predicate LeavesNumbered(s: Shield, leaves: seq<string>, numbers: Numbers) {
    forall t :: t in leaves ==> TextNumbered(s, |s.rules|, t, numbers)
  }

  function LeavesHit(s: Shield, leaves: seq<string>, numbers: Numbers): set<string> {
    if leaves == [] then {}
    else LeavesHit(s, leaves[..|leaves| - 1], numbers) + RulesHit(s, |s.rules|, leaves[|leaves| - 1], numbers)
  }

  ghost predicate Agree(s: Shield, leaves: seq<string>, a: Numbers, b: Numbers) {
    forall t :: t in leaves ==> LeafText(s, t, a) == LeafText(s, t, b)
  }

  /** No leaf is changed. */
  ghost predicate Fixed(s: Shield, leaves: seq<string>, numbers: Numbers) {
    forall t :: t in leaves ==> LeafText(s, t, numbers) == t
  }

  lemma {:induction false} NodeAgrees(s: Shield, node: Json, depth: nat, a: Numbers, b: Numbers)
    ensures Agree(s, NodeLeaves(s, node, depth), a, b) ==> MapNode(s, node, depth, a) == MapNode(s, node, depth, b)
    ensures Fixed(s, NodeLeaves(s, node, depth), a) ==> MapNode(s, node, depth, a) == node
    decreases node, 0
  {
    if depth <= MaxDepth {
      match node
      case Arr(items) => ItemsAgree(s, items, depth, a, b);
      case Obj(fields) => FieldsAgree(s, fields, depth, a, b);
      case _ =>
    }
  }

  lemma {:induction false} ValueAgrees(s: Shield, inArray: bool, key: string, j: Json, depth: nat, a: Numbers,
                                       b: Numbers)
    ensures Agree(s, ValueLeaves(s, inArray, key, j, depth), a, b) ==>
            MapValue(s, inArray, key, j, depth, a) == MapValue(s, inArray, key, j, depth, b)
    ensures Fixed(s, ValueLeaves(s, inArray, key, j, depth), a) ==> MapValue(s, inArray, key, j, depth, a) == j
    decreases j, 1
  {
    hide LeafText;
    if IsLeaf(s, inArray, key, j) {
      assert j.s in [j.s];
    } else if !j.Str? {
      NodeAgrees(s, j, depth + 1, a, b);
    }
  }

  lemma {:induction false} ItemsAgree(s: Shield, items: seq<Json>, depth: nat, a: Numbers, b: Numbers)
    ensures Agree(s, ItemLeaves(s, items, depth), a, b) ==> MapItems(s, items, depth, a) == MapItems(s, items, depth, b)
    ensures Fixed(s, ItemLeaves(s, items, depth), a) ==> MapItems(s, items, depth, a) == items
    decreases items
  {
    hide LeafText;
    if items != [] {
      ItemsAgree(s, items[..|items| - 1], depth, a, b);
      ValueAgrees(s, true, "", items[|items| - 1], depth, a, b);
    }
  }

  lemma {:induction false} FieldsAgree(s: Shield, fields: seq<Field>, depth: nat, a: Numbers, b: Numbers)
    ensures Agree(s, FieldLeaves(s, fields, depth), a, b) ==>
            MapFields(s, fields, depth, a) == MapFields(s, fields, depth, b)
    ensures Fixed(s, FieldLeaves(s, fields, depth), a) ==> MapFields(s, fields, depth, a) == fields
    decreases fields
  {
    hide LeafText;
    if fields != [] {
      var f := fields[|fields| - 1];
      FieldsAgree(s, fields[..|fields| - 1], depth, a, b);
      ValueAgrees(s, false, f.key, f.value, depth, a, b);
    }
  }

  lemma {:induction false} LeavesStay(s: Shield, leaves: seq<string>, a: Numbers, b: Numbers)
    requires Grows(a, b) && LeavesNumbered(s, leaves, a)
    ensures LeavesNumbered(s, leaves, b) && Agree(s, leaves, a, b)
    ensures LeavesHit(s, leaves, b) == LeavesHit(s, leaves, a)
  {
    if leaves != [] {
      var n := |leaves| - 1;
      assert leaves == leaves[..n] + [leaves[n]];
      LeavesStay(s, leaves[..n], a, b);
      TextStays(s, |s.rules|, leaves[n], a, b);
    }
  }

  lemma {:induction false} LeavesHitConcat(s: Shield, a: seq<string>, b: seq<string>, numbers: Numbers)
    ensures LeavesHit(s, a + b, numbers) == LeavesHit(s, a, numbers) + LeavesHit(s, b, numbers)
  {
    if b == [] {
      assert a + b == a;
    } else {
      LeavesHitConcat(s, a, b[..|b| - 1], numbers);
      Front(a, b);
    }
  }

  lemma {:induction false} NoHitFixes(s: Shield, leaves: seq<string>, numbers: Numbers)
    requires forall r :: r in s.rules ==> ValidRule(r)
    requires LeavesHit(s, leaves, numbers) == {}
    ensures Fixed(s, leaves, numbers)
  {
    hide ValidRule, RulesHit, RulesText;
    if leaves != [] {
      var n := |leaves| - 1;
      assert leaves == leaves[..n] + [leaves[n]];
      NoHitFixes(s, leaves[..n], numbers);
      NoHitNoChange(s, |s.rules|, leaves[n], numbers);
    }
  }

  /** Visiting the leaves takes the numbering from `was` to `now`, and the rules recorded from `hit0` to `hit`. */
  ghost predicate WalkedTo(s: Shield, leaves: seq<string>, was: Numbers, now: Numbers, hit0: set<string>,
                           hit: set<string>) {
    && now == SeeLeaves(s, leaves, was)
    && LeavesNumbered(s, leaves, now)
    && hit == hit0 + LeavesHit(s, leaves, now)
  }

  lemma WalkedOn(s: Shield, done: seq<string>, more: seq<string>, was: Numbers, a: Numbers, b: Numbers,
                 hit0: set<string>, hit1: set<string>, hit2: set<string>)
    requires WalkedTo(s, done, was, a, hit0, hit1) && Grows(a, b) && WalkedTo(s, more, a, b, hit1, hit2)
    ensures WalkedTo(s, done + more, was, b, hit0, hit2)
    ensures Agree(s, done, a, b)
  {
    LeavesStay(s, done, a, b);
    LeavesHitConcat(s, done, more, b);
    SeeLeavesConcat(s, done, more, was);
    hide TextNumbered, LeavesHit, SeeLeaves, RulesText;
  }

  lemma ItemNext(s: Shield, items: seq<Json>, k: nat, depth: nat, was: Numbers, a: Numbers, b: Numbers,
                 hit0: set<string>, hit1: set<string>, hit2: set<string>)
    requires k < |items| && Grows(a, b)
    requires WalkedTo(s, ItemLeaves(s, items[..k], depth), was, a, hit0, hit1)
    requires WalkedTo(s, ValueLeaves(s, true, "", items[k], depth), a, b, hit1, hit2)
    ensures WalkedTo(s, ItemLeaves(s, items[..k + 1], depth), was, b, hit0, hit2)
    ensures MapItems(s, items[..k + 1], depth, b)
            == MapItems(s, items[..k], depth, a) + [MapValue(s, true, "", items[k], depth, b)]
  {
    Prefixes(items, k);
    hide WalkedTo, Agree, Grows, MapValue, ValueLeaves;
    WalkedOn(s, ItemLeaves(s, items[..k], depth), ValueLeaves(s, true, "", items[k], depth), was, a, b, hit0, hit1,
             hit2);
    ItemsAgree(s, items[..k], depth, a, b);
  }

  lemma FieldNext(s: Shield, fields: seq<Field>, k: nat, depth: nat, was: Numbers, a: Numbers, b: Numbers,
                  hit0: set<string>, hit1: set<string>, hit2: set<string>)
    requires k < |fields| && Grows(a, b)
    requires WalkedTo(s, FieldLeaves(s, fields[..k], depth), was, a, hit0, hit1)
    requires WalkedTo(s, ValueLeaves(s, false, fields[k].key, fields[k].value, depth), a, b, hit1, hit2)
    ensures WalkedTo(s, FieldLeaves(s, fields[..k + 1], depth), was, b, hit0, hit2)
    ensures var v := MapValue(s, false, fields[k].key, fields[k].value, depth, b);
            MapFields(s, fields[..k + 1], depth, b) == MapFields(s, fields[..k], depth, a) + [Field(fields[k].key, v)]
  {
    Prefixes(fields, k);
    hide WalkedTo, Agree, Grows, MapValue, ValueLeaves;
    var f := fields[k];
    WalkedOn(s, FieldLeaves(s, fields[..k], depth), ValueLeaves(s, false, f.key, f.value, depth), was, a, b, hit0, hit1,
             hit2);
    FieldsAgree(s, fields[..k], depth, a, b);
  }

  lemma GrowsOn(a: Numbers, b: Numbers, c: Numbers)
    requires Grows(a, b) && Grows(b, c)
    ensures Grows(a, c)
  {
    hide For;
    forall tag ensures Extends(For(a, tag), For(c, tag)) {
      assert Extends(For(a, tag), For(b, tag)) && Extends(For(b, tag), For(c, tag));
    }
  }

  // ----- the run that builds the numbering as it goes

  class Redactor {
    const shield: Shield
    var numbers: Numbers
    var hit: set<string>

    constructor (shield: Shield)
      ensures this.shield == shield && Valid() && numbers == map[] && hit == {}
    {
      this.shield := shield;
      numbers, hit := map[], {};
    }

    ghost predicate Valid()
      reads this
    {
      AllNumberings(numbers)
    }

    /** One match: numbered under its label as it is first seen, unless the rule's validator turns it down. */
    method Substitute(r: Rule, m: string) returns (out: string)
      requires Valid()
      modifies this
      ensures Valid() && Grows(old(numbers), numbers)
      ensures hit == old(hit) + if r.passes(m) then {r.name} else {}
      ensures numbers == if r.passes(m) then SeeValue(old(numbers), r.tag, m) else old(numbers)
      ensures r.passes(m) ==> m in For(numbers, r.tag) && out == Placeholder(r.tag, For(numbers, r.tag)[m])
      ensures !r.passes(m) ==> out == m
    {
      if !r.passes(m) {
        return m;
      }
      SeeValueKeeps(numbers, r.tag, m);
      hide AllNumberings, Grows;
      var seen := For(numbers, r.tag);
      if m !in seen {
        seen := seen[m := |seen| + 1];
      }
      ForUpdate(numbers, r.tag, seen, r.tag);
      hide For;
      numbers := numbers[r.tag := seen];
      hit := hit + {r.name};
      out := Placeholder(r.tag, seen[m]);
    }

    /** The next piece of a text, after those done. */
    method ApplyPiece(r: Rule, p: Piece, out0: string, ghost done: seq<Piece>, ghost was: Numbers,
                      ghost hit0: set<string>)
        returns (out: string)
      requires Valid() && Applied(r, done, out0, was, hit0)
      modifies this
      ensures Valid() && Grows(old(numbers), numbers)
      ensures Applied(r, done + [p], out, was, hit0)
    {
      hide Render, AllNumbered, Numbered, Placeholder, Accepts, SeeValue;
      AcceptsNext(done, p, r.passes);
      Init(done, p);
      if p.Keep? {
        out := out0 + p.s;
      } else {
        var replaced := Substitute(r, p.s);
        out := out0 + replaced;
      }
      assert Extends(old(For(numbers, r.tag)), For(numbers, r.tag));
      NumbersStay(done, r.passes, r.tag, old(For(numbers, r.tag)), For(numbers, r.tag));
      RenderNext(done, p, r.passes, r.tag, For(numbers, r.tag));
      NumberedNext(done, p, r.passes, For(numbers, r.tag));
    }

    /** The pieces done so far are written out, numbered and accounted for. */
    ghost predicate Applied(r: Rule, done: seq<Piece>, out: string, was: Numbers, hit0: set<string>)
      reads this
    {
      && numbers == SeePieces(r, done, was)
      && AllNumbered(done, r.passes, For(numbers, r.tag))
      && out == Render(done, r.passes, r.tag, For(numbers, r.tag))
      && hit == hit0 + if Accepts(done, r.passes) then {r.name} else {}
    }

    method ApplyRule(r: Rule, text: string) returns (out: string)
      requires Valid()
      modifies this
      ensures Valid() && Grows(old(numbers), numbers)
      ensures numbers == SeePieces(r, r.pieces(text), old(numbers))
      ensures AllNumbered(r.pieces(text), r.passes, For(numbers, r.tag))
      ensures out == RuleText(r, text, numbers)
      ensures hit == old(hit) + if Accepts(r.pieces(text), r.passes) then {r.name} else {}
    {
      var pieces := r.pieces(text);
      out := "";
      for k := 0 to |pieces|
        invariant Valid() && Grows(old(numbers), numbers)
        invariant Applied(r, pieces[..k], out, old(numbers), old(hit))
      {
        ghost var before := numbers;
        assert pieces[..k + 1] == pieces[..k] + [pieces[k]];
        hide Applied, AllNumberings, Grows;
        out := ApplyPiece(r, pieces[k], out, pieces[..k], old(numbers), old(hit));
        GrowsOn(old(numbers), before, numbers);
      }
      assert pieces[..|pieces|] == pieces;
    }

    /** The first k rules have gone over the text. */
    ghost predicate Ruled(k: nat, text: string, out: string, was: Numbers, hit0: set<string>)
      requires k <= |shield.rules|
      reads this
    {
      && numbers == SeeText(shield, k, text, was)
      && TextNumbered(shield, k, text, numbers)
      && out == RulesText(shield, k, text, numbers)
      && hit == hit0 + RulesHit(shield, k, text, numbers)
    }

    method ApplyNext(k: nat, out0: string, ghost text: string, ghost was: Numbers, ghost hit0: set<string>)
        returns (out: string)
      requires Valid() && k < |shield.rules| && Ruled(k, text, out0, was, hit0)
      modifies this
      ensures Valid() && Grows(old(numbers), numbers)
      ensures Ruled(k + 1, text, out, was, hit0)
    {
      hide AllNumberings, RuleText, AllNumbered, Accepts, SeePieces, SeeText, TextNumbered, RulesText, RulesHit;
      var r := shield.rules[k];
      out := out0;
      if !r.flag && r.name in shield.names {
        out := ApplyRule(r, out0);
        hide Grows;
        RuleNext(shield, k, text, was, old(numbers), numbers);
      } else {
        RuleSkipped(shield, k, text, was, numbers);
      }
    }

    method RedactText(text: string) returns (out: string)
      requires Valid()
      modifies this
      ensures Valid() && Grows(old(numbers), numbers)
      ensures numbers == SeeText(shield, |shield.rules|, text, old(numbers))
      ensures TextNumbered(shield, |shield.rules|, text, numbers)
      ensures out == LeafText(shield, text, numbers)
      ensures hit == old(hit) + RulesHit(shield, |shield.rules|, text, numbers)
    {
      out := text;
      for k := 0 to |shield.rules|
        invariant Valid() && Grows(old(numbers), numbers)
        invariant Ruled(k, text, out, old(numbers), old(hit))
      {
        ghost var before := numbers;
        hide AllNumberings, Grows, TextNumbered, RulesText, RulesHit;
        out := ApplyNext(k, out, text, old(numbers), old(hit));
        GrowsOn(old(numbers), before, numbers);
      }
    }

    method WalkNode(node: Json, depth: nat) returns (out: Json)
      requires Valid()
      modifies this
      ensures Valid() && Grows(old(numbers), numbers)
      ensures WalkedTo(shield, NodeLeaves(shield, node, depth), old(numbers), numbers, old(hit), hit)
      ensures out == MapNode(shield, node, depth, numbers)
      decreases node, 0
    {
      hide AllNumberings;
      out := node;
      if depth > MaxDepth {
        return;
      }
      match node
      case Arr(items) =>
        var mapped := WalkItems(items, depth);
        out := Arr(mapped);
      case Obj(fields) =>
        var mapped := WalkFields(fields, depth);
        out := Obj(mapped);
      case _ =>
    }

    method WalkValue(inArray: bool, key: string, j: Json, depth: nat) returns (out: Json)
      requires Valid()
      modifies this
      ensures Valid() && Grows(old(numbers), numbers)
      ensures WalkedTo(shield, ValueLeaves(shield, inArray, key, j, depth), old(numbers), numbers, old(hit), hit)
      ensures out == MapValue(shield, inArray, key, j, depth, numbers)
      decreases j, 1
    {
      hide AllNumberings, RulesText, RulesHit, TextNumbered, SeeText;
      if j.Str? {
        out := j;
        if inArray || !shield.skips(key, j.s) {
          var text := RedactText(j.s);
          out := Str(text);
          assert SeeLeaves(shield, [j.s], old(numbers)) == numbers by {
            assert [j.s][..0] == [];
          }
          assert LeavesHit(shield, [j.s], numbers) == RulesHit(shield, |shield.rules|, j.s, numbers) by {
            assert [j.s][..0] == [];
          }
        }
      } else {
        out := WalkNode(j, depth + 1);
      }
    }

    method WalkItems(items: seq<Json>, depth: nat) returns (out: seq<Json>)
      requires Valid()
      modifies this
      ensures Valid() && Grows(old(numbers), numbers)
      ensures WalkedTo(shield, ItemLeaves(shield, items, depth), old(numbers), numbers, old(hit), hit)
      ensures out == MapItems(shield, items, depth, numbers)
      decreases items
    {
      out := [];
      for k := 0 to |items|
        invariant Valid() && Grows(old(numbers), numbers)
        invariant WalkedTo(shield, ItemLeaves(shield, items[..k], depth), old(numbers), numbers, old(hit), hit)
        invariant out == MapItems(shield, items[..k], depth, numbers)
      {
        ghost var before, hitBefore := numbers, hit;
        hide AllNumberings, WalkedTo, ItemLeaves, ValueLeaves, MapItems, MapValue, Grows;
        var v := WalkValue(true, "", items[k], depth);
        ItemNext(shield, items, k, depth, old(numbers), before, numbers, old(hit), hitBefore, hit);
        GrowsOn(old(numbers), before, numbers);
        out := out + [v];
      }
      assert items[..|items|] == items;
    }

    method WalkFields(fields: seq<Field>, depth: nat) returns (out: seq<Field>)
      requires Valid()
      modifies this
      ensures Valid() && Grows(old(numbers), numbers)
      ensures WalkedTo(shield, FieldLeaves(shield, fields, depth), old(numbers), numbers, old(hit), hit)
      ensures out == MapFields(shield, fields, depth, numbers)
      decreases fields
    {
      out := [];
      for k := 0 to |fields|
        invariant Valid() && Grows(old(numbers), numbers)
        invariant WalkedTo(shield, FieldLeaves(shield, fields[..k], depth), old(numbers), numbers, old(hit), hit)
        invariant out == MapFields(shield, fields[..k], depth, numbers)
      {
        var f := fields[k];
        ghost var before, hitBefore := numbers, hit;
        hide AllNumberings, WalkedTo, FieldLeaves, ValueLeaves, MapFields, MapValue, Grows;
        var v := WalkValue(false, f.key, f.value, depth);
        FieldNext(shield, fields, k, depth, old(numbers), before, numbers, old(hit), hitBefore, hit);
        GrowsOn(old(numbers), before, numbers);
        out := out + [Field(f.key, v)];
      }
      assert fields[..|fields|] == fields;
    }
  }

  lemma AcceptsNext(done: seq<Piece>, p: Piece, passes: string -> bool)
    ensures Accepts(done + [p], passes) <==> Accepts(done, passes) || IsHit(p, passes)
  {
    var all := done + [p];
    assert all[|done|] == p;
    hide IsHit;
    if Accepts(done, passes) {
      var k :| 0 <= k < |done| && IsHit(done[k], passes);
      assert IsHit(all[k], passes);
    }
  }

  lemma NumberedNext(done: seq<Piece>, p: Piece, passes: string -> bool, numbers: map<string, nat>)
    requires AllNumbered(done, passes, numbers)
    requires IsHit(p, passes) ==> p.s in numbers
    ensures AllNumbered(done + [p], passes, numbers)
  {
  }

  lemma OneMoreNumbered(seen: map<string, nat>, m: string)
    requires Numbered(seen) && m !in seen
    ensures Numbered(seen[m := |seen| + 1])
  {
    assert seen[m := |seen| + 1].Keys == seen.Keys + {m};
    assert |seen[m := |seen| + 1].Keys| == |seen| + 1;
  }

  lemma ForUpdate(numbers: Numbers, tag: string, seen: map<string, nat>, t: string)
    ensures For(numbers[tag := seen], t) == if t == tag then seen else For(numbers, t)
  {
  }

  lemma UpdateKeeps(numbers: Numbers, tag: string, more: map<string, nat>)
    requires AllNumberings(numbers) && Numbered(more) && Extends(For(numbers, tag), more)
    ensures AllNumberings(numbers[tag := more]) && Grows(numbers, numbers[tag := more])
  {
    hide Numbered, For;
    var after := numbers[tag := more];
    forall t ensures Numbered(For(after, t)) {
      ForUpdate(numbers, tag, more, t);
      assert Numbered(For(numbers, t));
    }
    hide AllNumberings;
    forall t ensures Extends(For(numbers, t), For(after, t)) {
      ForUpdate(numbers, tag, more, t);
    }
  }

  lemma SeeValueKeeps(numbers: Numbers, tag: string, m: string)
    requires AllNumberings(numbers)
    ensures AllNumberings(SeeValue(numbers, tag, m)) && Grows(numbers, SeeValue(numbers, tag, m))
  {
    var seen := For(numbers, tag);
    assert Numbered(seen);
    if m !in seen {
      OneMoreNumbered(seen, m);
    }
    hide Numbered, AllNumberings, Grows;
    UpdateKeeps(numbers, tag, if m in seen then seen else seen[m := |seen| + 1]);
  }

  // ----- the body as it is sent

  datatype Codec = Codec(parse: string -> Option<Json>, stringify: Json -> string)

  /** The body's numbers: every value a rule replaces, numbered from 1 under its label in the order the leaves are
      visited. */
  function BodyNumbers(s: Shield, body: Json): Numbers {
    SeeLeaves(s, NodeLeaves(s, body, 0), map[])
  }

  function BodyHit(s: Shield, body: Json): set<string> {
    LeavesHit(s, NodeLeaves(s, body, 0), BodyNumbers(s, body))
  }

  /** Each leaf of the output is redacted under the one numbering of the whole body, and every replaced value has its
      number there; the rules are exactly those that replace something, and without any the original string is sent. */
  ghost predicate RedactedTo(s: Shield, codec: Codec, raw: string, out: string, rules: set<string>) {
    var parsed := codec.parse(raw);
    if parsed.Some? && parsed.value.Obj? then BodyRedactedTo(s, codec, raw, parsed.value, out, rules)
    else out == raw && rules == {}
  }

  ghost predicate BodyRedactedTo(s: Shield, codec: Codec, raw: string, body: Json, out: string, rules: set<string>) {
    && AllNumberings(BodyNumbers(s, body))
    && LeavesNumbered(s, NodeLeaves(s, body, 0), BodyNumbers(s, body))
    && rules == BodyHit(s, body)
    && out == (if rules == {} then raw else codec.stringify(MapNode(s, body, 0, BodyNumbers(s, body))))
  }

  method RedactJsonBody(s: Shield, codec: Codec, raw: string) returns (out: string, rules: set<string>)
    ensures RedactedTo(s, codec, raw, out, rules)
  {
    hide LeavesNumbered, LeavesHit, NodeLeaves, SeeLeaves, MapNode, Grows, AllNumberings;
    out, rules := raw, {};
    var parsed := codec.parse(raw);
    if parsed.Some? && parsed.value.Obj? {
      var redactor := new Redactor(s);
      var body := redactor.WalkNode(parsed.value, 0);
      rules := redactor.hit;
      if rules != {} {
        out := codec.stringify(body);
      }
    }
  }

  /** Where no rule hits, mapping the leaves would not have changed the body either. */
  lemma NoHitNoRewrite(s: Shield, body: Json, numbers: Numbers)
    requires forall r :: r in s.rules ==> ValidRule(r)
    requires LeavesHit(s, NodeLeaves(s, body, 0), numbers) == {}
    ensures MapNode(s, body, 0, numbers) == body
  {
    hide ValidRule, LeavesHit, NodeLeaves, MapNode, Fixed, LeafText;
    NoHitFixes(s, NodeLeaves(s, body, 0), numbers);
    NodeAgrees(s, body, 0, numbers, numbers);
  }

  /** The tree keeps its shape: same items, same keys in the same order, each value mapped on its own. */
  lemma {:induction false} ItemsPointwise(s: Shield, items: seq<Json>, depth: nat, numbers: Numbers, k: nat)
    requires k < |items|
    ensures MapItems(s, items, depth, numbers)[k] == MapValue(s, true, "", items[k], depth, numbers)
  {
    if k < |items| - 1 {
      ItemsPointwise(s, items[..|items| - 1], depth, numbers, k);
    }
  }

  lemma {:induction false} FieldsPointwise(s: Shield, fields: seq<Field>, depth: nat, numbers: Numbers, k: nat)
    requires k < |fields|
    ensures MapFields(s, fields, depth, numbers)[k]
            == Field(fields[k].key, MapValue(s, false, fields[k].key, fields[k].value, depth, numbers))
  {
    if k < |fields| - 1 {
      FieldsPointwise(s, fields[..|fields| - 1], depth, numbers, k);
    }
  }

  /** Rule k is asked for and not flag-tier, and something it matches passes its validator. */
  ghost predicate Replaces(s: Shield, k: nat, text: string, numbers: Numbers, name: string)
    requires k < |s.rules|
  {
    var r, pieces := s.rules[k], s.rules[k].pieces(RulesText(s, k, text, numbers));
    && r.name == name && name in s.names && !r.flag
    && exists i :: 0 <= i < |pieces| && pieces[i].Key? && r.passes(pieces[i].s)
  }

  /** The rules reported are exactly those that replace something. */
  lemma {:induction false} HitsApply(s: Shield, n: nat, text: string, numbers: Numbers, name: string)
    requires n <= |s.rules|
    ensures name in RulesHit(s, n, text, numbers) <==> exists k: nat :: k < n && Replaces(s, k, text, numbers, name)
  {
    if n > 0 {
      HitsApply(s, n - 1, text, numbers, name);
      hide RulesText;
      var r := s.rules[n - 1];
      var pieces := r.pieces(RulesText(s, n - 1, text, numbers));
      assert Replaces(s, n - 1, text, numbers, name)
             <==> s.Applies(r) && r.name == name && Accepts(pieces, r.passes) by {
        AcceptsMeaning(pieces, r.passes);
      }
    }
  }

  lemma AcceptsMeaning(pieces: seq<Piece>, passes: string -> bool)
    ensures Accepts(pieces, passes) <==> exists i :: 0 <= i < |pieces| && pieces[i].Key? && passes(pieces[i].s)
  {
    if i :| 0 <= i < |pieces| && pieces[i].Key? && passes(pieces[i].s) {
      assert IsHit(pieces[i], passes);
    }
  }

  /** A value seen under a label takes the next number there if it is new, and no other number changes, there or under
      any other label. */
  lemma SeeValueMeaning(numbers: Numbers, tag: string, m: string, other: string)
    ensures var seen, after := For(numbers, tag), SeeValue(numbers, tag, m);
            && (m in seen ==> For(after, tag) == seen)
            && (m !in seen ==> For(after, tag) == seen[m := |seen| + 1])
            && (other != tag ==> For(after, other) == For(numbers, other))
  {
  }

  // ----- leaf by leaf, wherever it is

  /** What stands at a path of item and field positions. */
  function At(j: Json, path: seq<nat>): Option<Json>
    decreases |path|
  {
    if path == [] then Some(j)
    else match j
      case Arr(items) => if path[0] < |items| then At(items[path[0]], path[1..]) else None
      case Obj(fields) => if path[0] < |fields| then At(fields[path[0]].value, path[1..]) else None
      case _ => None
  }

  /** The key the last step of the path goes by, or None for a step into a list. */
  function KeyAt(j: Json, path: seq<nat>): Option<string>
    requires path != []
    decreases |path|
  {
    match j
    case Arr(items) => if |path| > 1 && path[0] < |items| then KeyAt(items[path[0]], path[1..]) else None
    case Obj(fields) =>
      if path[0] >= |fields| then None
      else if |path| == 1 then Some(fields[path[0]].key)
      else KeyAt(fields[path[0]].value, path[1..])
    case _ => None
  }

  lemma MappedValue(s: Shield, inArray: bool, key: string, j: Json, depth: nat, numbers: Numbers)
    requires !j.Arr? && !j.Obj?
    ensures MapValue(s, inArray, key, j, depth, numbers)
            == if j.Str? && (inArray || !s.skips(key, j.s)) then Str(LeafText(s, j.s, numbers)) else j
  {
    hide LeafText;
  }

  /** Every string of a body is redacted that stands no deeper than 64 levels and is no id or payload of its key; and
      nothing else that is not a list or an object is touched. */
  lemma {:induction false} EveryLeaf(s: Shield, node: Json, path: seq<nat>, depth: nat, numbers: Numbers)
    requires path != [] && At(node, path).Some? && !At(node, path).value.Arr? && !At(node, path).value.Obj?
    ensures var leaf, key := At(node, path).value, KeyAt(node, path);
            At(MapNode(s, node, depth, numbers), path)
            == Some(if leaf.Str? && depth + |path| - 1 <= 64 && !(key.Some? && s.skips(key.value, leaf.s))
                    then Str(LeafText(s, leaf.s, numbers)) else leaf)
    decreases |path|
  {
    hide LeafText;
    if depth <= 64 {
      match node
      case Arr(items) =>
        ItemsPointwise(s, items, depth, numbers, path[0]);
        if |path| == 1 {
          MappedValue(s, true, "", items[path[0]], depth, numbers);
        } else {
          EveryLeaf(s, items[path[0]], path[1..], depth + 1, numbers);
        }
      case Obj(fields) =>
        FieldsPointwise(s, fields, depth, numbers, path[0]);
        if |path| == 1 {
          MappedValue(s, false, fields[path[0]].key, fields[path[0]].value, depth, numbers);
        } else {
          EveryLeaf(s, fields[path[0]].value, path[1..], depth + 1, numbers);
        }
      case _ =>
    }
  }

  /** The rules go over a text in order, each over what the one before left: one that is asked for and not flag-tier
      puts its placeholders in, and any other leaves the text alone. */
  lemma RuleByRule(s: Shield, n: nat, text: string, numbers: Numbers)
    requires n < |s.rules|
    ensures RulesText(s, 0, text, numbers) == text
    ensures var r, before, after := s.rules[n], RulesText(s, n, text, numbers), RulesText(s, n + 1, text, numbers);
            if r.name in s.names && !r.flag
            then after == Render(r.pieces(before), r.passes, r.tag, For(numbers, r.tag))
            else after == before
    ensures LeafText(s, text, numbers) == RulesText(s, |s.rules|, text, numbers)
  {
    hide Render;
  }
}

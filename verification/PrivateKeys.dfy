/** redactPrivateKeys from shield-core.js: the memoised END search against one that looks afresh from every
    accepted header, and the numbered placeholders that replace what was found. */
module PrivateKeys {
  import opened Wrappers

  const END_TOKEN := "-----END "
  const KEY_BODY_MAX := 8192

  // A header match of the rule's expression.
  datatype Span = Span(start: nat, length: nat) {
    function Stop(): nat { start + length }
  }

  /** The length of the END line at a position, if one is there. */
  type EndLine = nat -> Option<nat>

  predicate IsCandidate(text: string, i: nat) {
    i + |END_TOKEN| <= |text| && text[i..i + |END_TOKEN|] == END_TOKEN
  }

  ghost predicate ValidEndLine(text: string, endLine: EndLine) {
    forall i: nat :: endLine(i).Some? ==> IsCandidate(text, i) && 0 < endLine(i).value && i + endLine(i).value <= |text|
  }

  /** Matches come in order and do not overlap. */
  ghost predicate ValidHeaders(text: string, headers: seq<Span>) {
    && (forall k :: 0 <= k < |headers| ==> 0 < headers[k].length && headers[k].Stop() <= |text|)
    && (forall j, k :: 0 <= j < k < |headers| ==> headers[j].Stop() <= headers[k].start)
  }

  // ----- the simple version

  datatype Piece = Keep(s: string) | Key(s: string)

  /** The first END line at or after a position, looking at every position afresh; -1 if there is none. */
  function FirstEnd(text: string, endLine: EndLine, from: nat): (r: int)
    ensures r == -1 || from <= r < |text|
    ensures r >= 0 ==> endLine(r).Some?
    ensures r == -1 ==> forall i: nat :: from <= i < |text| ==> endLine(i).None?
    ensures r >= 0 ==> forall i: nat :: from <= i < r ==> endLine(i).None?
    decreases |text| - from
  {
    if from >= |text| then -1 else if endLine(from).Some? then from else FirstEnd(text, endLine, from + 1)
  }

  /** A key runs to the end of its END line if that starts soon enough after the header. */
  function KeyStop(text: string, endLine: EndLine, stop: nat): nat {
    var e := FirstEnd(text, endLine, stop);
    if e != -1 && e - stop <= KEY_BODY_MAX then e + endLine(e).value else stop
  }

  datatype Cut = Cut(pieces: seq<Piece>, pos: nat)

  /** The text cut up by the first k headers. A header inside an earlier key is passed over. */
  function CutBy(text: string, headers: seq<Span>, endLine: EndLine, k: nat): (c: Cut)
    requires ValidHeaders(text, headers) && ValidEndLine(text, endLine)
    requires k <= |headers|
    ensures c.pos <= |text|
  {
    if k == 0 then Cut([], 0)
    else
      var c, h := CutBy(text, headers, endLine, k - 1), headers[k - 1];
      if h.start < c.pos then c
      else
        var stop := KeyStop(text, endLine, h.Stop());
        Cut(c.pieces + [Keep(text[c.pos..h.start])] + [Key(text[h.start..stop])], stop)
  }

  function Pieces(text: string, headers: seq<Span>, endLine: EndLine): seq<Piece>
    requires ValidHeaders(text, headers) && ValidEndLine(text, endLine)
  {
    var c := CutBy(text, headers, endLine, |headers|);
    c.pieces + [Keep(text[c.pos..])]
  }

  function Source(pieces: seq<Piece>): string {
    if pieces == [] then "" else Source(pieces[..|pieces| - 1]) + pieces[|pieces| - 1].s
  }

  lemma SourceNext(pieces: seq<Piece>, p: Piece)
    ensures Source(pieces + [p]) == Source(pieces) + p.s
  {
    assert (pieces + [p])[..|pieces|] == pieces;
  }

  lemma JoinSlices(text: string, a: nat, b: nat, c: nat)
    requires a <= b <= c <= |text|
    ensures text[..a] + text[a..b] + text[b..c] == text[..c]
  {
  }

  lemma {:induction false} CutTiles(text: string, headers: seq<Span>, endLine: EndLine, k: nat)
    requires ValidHeaders(text, headers) && ValidEndLine(text, endLine)
    requires k <= |headers|
    ensures var c := CutBy(text, headers, endLine, k); Source(c.pieces) == text[..c.pos]
  {
    if k > 0 {
      CutTiles(text, headers, endLine, k - 1);
      var c, h := CutBy(text, headers, endLine, k - 1), headers[k - 1];
      if c.pos <= h.start {
        var stop := KeyStop(text, endLine, h.Stop());
        hide FirstEnd, Source;
        SourceNext(c.pieces, Keep(text[c.pos..h.start]));
        SourceNext(c.pieces + [Keep(text[c.pos..h.start])], Key(text[h.start..stop]));
        JoinSlices(text, c.pos, h.start, stop);
      }
    }
  }

  /** Kept and replaced pieces tile the text. */
  lemma PiecesTile(text: string, headers: seq<Span>, endLine: EndLine)
    requires ValidHeaders(text, headers) && ValidEndLine(text, endLine)
    ensures Source(Pieces(text, headers, endLine)) == text
  {
    CutTiles(text, headers, endLine, |headers|);
    var c := CutBy(text, headers, endLine, |headers|);
    SourceNext(c.pieces, Keep(text[c.pos..]));
  }

  // ----- which positions the keys cover

  /** Piece k is a key, from position a up to b of the text. */
  ghost predicate KeyFrom(pieces: seq<Piece>, k: nat, a: nat, b: nat) {
    k < |pieces| && pieces[k].Key? && |Source(pieces[..k])| == a && b == a + |pieces[k].s|
  }

  /** The first END line from a position on starts at e, and soon enough. */
  ghost predicate EndsAt(endLine: EndLine, from: nat, e: nat) {
    && from <= e <= from + 8192 && endLine(e).Some?
    && forall i: nat :: from <= i < e ==> endLine(i).None?
  }

  /** Where the key ends whose header stops at a position: with its END line, or right there if none starts in time. */
  ghost predicate EndsKey(endLine: EndLine, from: nat, b: nat) {
    || (exists e: nat :: EndsAt(endLine, from, e) && b == e + endLine(e).value)
    || (b == from && forall e: nat :: !EndsAt(endLine, from, e))
  }

  /** The header starts a key that ends as it should, or lies in the key of an earlier one. */
  ghost predicate Covered(pieces: seq<Piece>, h: Span, endLine: EndLine) {
    || (exists k: nat, b: nat :: KeyFrom(pieces, k, h.start, b) && EndsKey(endLine, h.Stop(), b))
    || (exists k: nat, a: nat, b: nat :: KeyFrom(pieces, k, a, b) && a < h.start < b)
  }

  /** The key is that of one of the first n headers. */
  ghost predicate HasHeader(headers: seq<Span>, endLine: EndLine, n: nat, a: nat, b: nat)
    requires n <= |headers|
  {
    exists j :: 0 <= j < n && headers[j].start == a && EndsKey(endLine, headers[j].Stop(), b)
  }

  /** The keys of the first n headers, and nothing else. */
  ghost predicate KeysOf(pieces: seq<Piece>, headers: seq<Span>, endLine: EndLine, n: nat)
    requires n <= |headers|
  {
    && (forall j :: 0 <= j < n ==> Covered(pieces, headers[j], endLine))
    && (forall k: nat, a: nat, b: nat :: KeyFrom(pieces, k, a, b) ==> HasHeader(headers, endLine, n, a, b))
  }

  lemma StopEndsKey(text: string, endLine: EndLine, from: nat)
    requires ValidEndLine(text, endLine) && from <= |text|
    ensures EndsKey(endLine, from, KeyStop(text, endLine, from)) && from <= KeyStop(text, endLine, from)
  {
    var e := FirstEnd(text, endLine, from);
    if e != -1 && e <= from + 8192 {
      assert EndsAt(endLine, from, e);
    } else {
      forall x: nat ensures !EndsAt(endLine, from, x) {
        assert from <= x < |text| && endLine(x).Some? ==> e != -1 && e <= x;
        assert x >= |text| ==> endLine(x).None?;
      }
    }
  }

  lemma MoreKeys(pieces: seq<Piece>, more: seq<Piece>, k: nat, a: nat, b: nat)
    requires KeyFrom(pieces, k, a, b)
    ensures KeyFrom(pieces + more, k, a, b)
  {
    assert (pieces + more)[..k] == pieces[..k];
  }

  lemma StaysCovered(pieces: seq<Piece>, more: seq<Piece>, h: Span, endLine: EndLine)
    requires Covered(pieces, h, endLine)
    ensures Covered(pieces + more, h, endLine)
  {
    hide KeyFrom, EndsKey;
    if k: nat, b: nat :| KeyFrom(pieces, k, h.start, b) && EndsKey(endLine, h.Stop(), b) {
      MoreKeys(pieces, more, k, h.start, b);
    } else {
      var k: nat, a: nat, b: nat :| KeyFrom(pieces, k, a, b) && a < h.start < b;
      MoreKeys(pieces, more, k, a, b);
    }
  }

  lemma AllStayCovered(pieces: seq<Piece>, more: seq<Piece>, headers: seq<Span>, endLine: EndLine, n: nat)
    requires n <= |headers| && forall j :: 0 <= j < n ==> Covered(pieces, headers[j], endLine)
    ensures forall j :: 0 <= j < n ==> Covered(pieces + more, headers[j], endLine)
  {
    hide Covered;
    forall j | 0 <= j < n ensures Covered(pieces + more, headers[j], endLine) {
      StaysCovered(pieces, more, headers[j], endLine);
    }
  }

  lemma KeyIn(pieces: seq<Piece>, p: Piece, k: nat, a: nat, b: nat)
    requires KeyFrom(pieces + [p], k, a, b)
    ensures if k < |pieces| then KeyFrom(pieces, k, a, b) else p.Key? && a == |Source(pieces)| && b == a + |p.s|
  {
    hide Source;
    assert (pieces + [p])[..k] == pieces[..k];
    assert pieces[..|pieces|] == pieces;
  }

  lemma KeepNext(pieces: seq<Piece>, headers: seq<Span>, endLine: EndLine, n: nat, kept: string)
    requires n <= |headers| && KeysOf(pieces, headers, endLine, n)
    ensures KeysOf(pieces + [Keep(kept)], headers, endLine, n)
  {
    var all := pieces + [Keep(kept)];
    AllStayCovered(pieces, [Keep(kept)], headers, endLine, n);
    hide Covered, HasHeader, Source, KeyFrom;
    forall k: nat, a: nat, b: nat | KeyFrom(all, k, a, b) ensures HasHeader(headers, endLine, n, a, b) {
      KeyIn(pieces, Keep(kept), k, a, b);
    }
  }

  lemma MoreHeaders(headers: seq<Span>, endLine: EndLine, n: nat, a: nat, b: nat)
    requires n < |headers| && HasHeader(headers, endLine, n, a, b)
    ensures HasHeader(headers, endLine, n + 1, a, b)
  {
    hide EndsKey;
  }

  lemma OwnHeader(headers: seq<Span>, endLine: EndLine, n: nat, b: nat)
    requires n < |headers| && EndsKey(endLine, headers[n].Stop(), b)
    ensures HasHeader(headers, endLine, n + 1, headers[n].start, b)
  {
    hide EndsKey;
  }

  lemma OwnKey(pieces: seq<Piece>, h: Span, endLine: EndLine, key: string)
    requires |Source(pieces)| == h.start && EndsKey(endLine, h.Stop(), h.start + |key|)
    ensures Covered(pieces + [Key(key)], h, endLine)
  {
    hide EndsKey, Source;
    assert (pieces + [Key(key)])[..|pieces|] == pieces;
    assert KeyFrom(pieces + [Key(key)], |pieces|, h.start, h.start + |key|);
  }

  lemma OnlyNext(pieces: seq<Piece>, headers: seq<Span>, endLine: EndLine, n: nat, key: string, k: nat, a: nat, b: nat)
    requires n < |headers| && KeysOf(pieces, headers, endLine, n)
    requires |Source(pieces)| == headers[n].start
    requires EndsKey(endLine, headers[n].Stop(), headers[n].start + |key|)
    requires KeyFrom(pieces + [Key(key)], k, a, b)
    ensures HasHeader(headers, endLine, n + 1, a, b)
  {
    hide Covered, EndsKey, Source, HasHeader, KeyFrom;
    KeyIn(pieces, Key(key), k, a, b);
    if k < |pieces| {
      MoreHeaders(headers, endLine, n, a, b);
    } else {
      OwnHeader(headers, endLine, n, b);
    }
  }

  lemma KeyNext(pieces: seq<Piece>, headers: seq<Span>, endLine: EndLine, n: nat, key: string)
    requires n < |headers| && KeysOf(pieces, headers, endLine, n)
    requires |Source(pieces)| == headers[n].start
    requires EndsKey(endLine, headers[n].Stop(), headers[n].start + |key|)
    ensures KeysOf(pieces + [Key(key)], headers, endLine, n + 1)
  {
    var all := pieces + [Key(key)];
    hide Covered, EndsKey, Source, HasHeader, KeyFrom;
    forall k: nat, a: nat, b: nat | KeyFrom(all, k, a, b) ensures HasHeader(headers, endLine, n + 1, a, b) {
      OnlyNext(pieces, headers, endLine, n, key, k, a, b);
    }
    assert forall j :: 0 <= j < n + 1 ==> Covered(all, headers[j], endLine) by {
      AllStayCovered(pieces, [Key(key)], headers, endLine, n);
      OwnKey(pieces, headers[n], endLine, key);
    }
  }

  /** A header before the end of the last key lies in it. */
  lemma InsideKey(text: string, pieces: seq<Piece>, headers: seq<Span>, endLine: EndLine, n: nat, pos: nat)
    requires ValidHeaders(text, headers) && n < |headers| && KeysOf(pieces, headers, endLine, n)
    requires EndsInKey(pieces, pos) && headers[n].start < pos
    ensures KeysOf(pieces, headers, endLine, n + 1)
  {
    hide Covered, EndsKey, Source;
    var k, a := |pieces| - 1, pos - |pieces[|pieces| - 1].s|;
    assert KeyFrom(pieces, k, a, pos) && HasHeader(headers, endLine, n, a, pos);
    var j :| 0 <= j < n && headers[j].start == a && EndsKey(endLine, headers[j].Stop(), pos);
    CoveredInside(pieces, k, a, pos, headers[n], endLine);
    forall k: nat, a: nat, b: nat | KeyFrom(pieces, k, a, b) ensures HasHeader(headers, endLine, n + 1, a, b) {
      assert HasHeader(headers, endLine, n, a, b);
    }
  }

  lemma CoveredInside(pieces: seq<Piece>, k: nat, a: nat, b: nat, h: Span, endLine: EndLine)
    requires KeyFrom(pieces, k, a, b) && a < h.start < b
    ensures Covered(pieces, h, endLine)
  {
    hide KeyFrom;
  }

  /** The pieces end where the last key does. */
  ghost predicate EndsInKey(pieces: seq<Piece>, pos: nat) {
    pos > 0 ==>
      pieces != [] && |pieces[|pieces| - 1].s| <= pos
      && KeyFrom(pieces, |pieces| - 1, pos - |pieces[|pieces| - 1].s|, pos)
  }

  lemma EndsInLast(pieces: seq<Piece>, key: string, at: nat)
    requires |Source(pieces)| == at
    ensures EndsInKey(pieces + [Key(key)], at + |key|)
  {
    assert (pieces + [Key(key)])[..|pieces|] == pieces;
  }

  lemma CutNext(text: string, pieces: seq<Piece>, headers: seq<Span>, endLine: EndLine, n: nat, pos: nat, stop: nat)
    requires n < |headers| && KeysOf(pieces, headers, endLine, n)
    requires pos <= headers[n].start <= stop <= |text| && Source(pieces) == text[..pos]
    requires EndsKey(endLine, headers[n].Stop(), stop)
    ensures var all := pieces + [Keep(text[pos..headers[n].start])] + [Key(text[headers[n].start..stop])];
            KeysOf(all, headers, endLine, n + 1) && EndsInKey(all, stop)
  {
    hide KeysOf, EndsKey, EndsInKey, Source;
    var kept, key := text[pos..headers[n].start], text[headers[n].start..stop];
    SourceNext(pieces, Keep(kept));
    KeepNext(pieces, headers, endLine, n, kept);
    KeyNext(pieces + [Keep(kept)], headers, endLine, n, key);
    EndsInLast(pieces + [Keep(kept)], key, headers[n].start);
  }

  lemma {:induction false} CutKeys(text: string, headers: seq<Span>, endLine: EndLine, k: nat)
    requires ValidHeaders(text, headers) && ValidEndLine(text, endLine)
    requires k <= |headers|
    ensures var c := CutBy(text, headers, endLine, k);
            KeysOf(c.pieces, headers, endLine, k) && EndsInKey(c.pieces, c.pos)
  {
    hide KeysOf, EndsKey, KeyStop, EndsInKey, Source, ValidEndLine;
    if k > 0 {
      CutKeys(text, headers, endLine, k - 1);
      CutTiles(text, headers, endLine, k - 1);
      var c, h := CutBy(text, headers, endLine, k - 1), headers[k - 1];
      StopEndsKey(text, endLine, h.Stop());
      if c.pos <= h.start {
        assert CutBy(text, headers, endLine, k).pos == KeyStop(text, endLine, h.Stop());
        CutNext(text, c.pieces, headers, endLine, k - 1, c.pos, KeyStop(text, endLine, h.Stop()));
      } else {
        InsideKey(text, c.pieces, headers, endLine, k - 1, c.pos);
      }
    } else {
      NoKeys(headers, endLine);
    }
  }

  lemma NoKeys(headers: seq<Span>, endLine: EndLine)
    ensures KeysOf([], headers, endLine, 0) && EndsInKey([], 0)
  {
  }

  /** Every header's key is replaced whole, from the header through the first END line if that starts within 8192
      characters after the header and otherwise the header alone; and nothing else is. A header inside an earlier key is
      part of it. */
  lemma KeysCovered(text: string, headers: seq<Span>, endLine: EndLine)
    requires ValidHeaders(text, headers) && ValidEndLine(text, endLine)
    ensures var pieces := Pieces(text, headers, endLine);
            && Source(pieces) == text
            && (forall j :: 0 <= j < |headers| ==> Covered(pieces, headers[j], endLine))
            && (forall k: nat, a: nat, b: nat :: KeyFrom(pieces, k, a, b) ==>
                  HasHeader(headers, endLine, |headers|, a, b))
  {
    hide Covered, HasHeader, Source, KeyFrom, CutBy;
    PiecesTile(text, headers, endLine);
    CutKeys(text, headers, endLine, |headers|);
    var c := CutBy(text, headers, endLine, |headers|);
    KeepNext(c.pieces, headers, endLine, |headers|, text[c.pos..]);
  }

  // ----- numbered placeholders

  function Digits(n: nat): string {
    (if n < 10 then "" else Digits(n / 10)) + ["0123456789"[n % 10]]
  }

  lemma {:induction false} DigitsInjective(m: nat, n: nat)
    requires Digits(m) == Digits(n)
    ensures m == n
  {
    var s := "0123456789";
    assert Digits(m)[|Digits(m)| - 1] == s[m % 10] && Digits(n)[|Digits(n)| - 1] == s[n % 10];
    assert m % 10 == n % 10;
    assert Digits(m)[..|Digits(m)| - 1] == (if m < 10 then "" else Digits(m / 10));
    assert Digits(n)[..|Digits(n)| - 1] == (if n < 10 then "" else Digits(n / 10));
    if m >= 10 && n >= 10 {
      DigitsInjective(m / 10, n / 10);
    }
  }

  function Placeholder(tag: string, n: nat): string {
    "[" + tag + "_" + Digits(n) + "]"
  }

  predicate Numbered(numbers: map<string, nat>) {
    && (forall m :: m in numbers ==> 1 <= numbers[m] <= |numbers|)
    && (forall m, m' :: m in numbers && m' in numbers && numbers[m] == numbers[m'] ==> m == m')
  }

  /** Two values get the same placeholder exactly when they are the same value. */
  lemma PlaceholdersTellApart(numbers: map<string, nat>, tag: string, m: string, m': string)
    requires Numbered(numbers) && m in numbers && m' in numbers
    ensures Placeholder(tag, numbers[m]) == Placeholder(tag, numbers[m']) <==> m == m'
  {
    var a, b := Placeholder(tag, numbers[m]), Placeholder(tag, numbers[m']);
    if a == b {
      var d := |tag| + 2;
      assert a[d..|a| - 1] == Digits(numbers[m]) && b[d..|b| - 1] == Digits(numbers[m']);
      DigitsInjective(numbers[m], numbers[m']);
    }
  }

  /** The values replaced under one label, numbered from 1 as they are first seen. */
  class Numbering {
    var numbers: map<string, nat>

    ghost predicate Valid() reads this {
      Numbered(numbers)
    }

    constructor ()
      ensures Valid() && numbers == map[]
    {
      numbers := map[];
    }

    method Number(m: string) returns (n: nat)
      requires Valid()
      modifies this
      ensures Valid()
      ensures m in numbers && n == numbers[m]
      ensures numbers == if m in old(numbers) then old(numbers) else old(numbers)[m := |old(numbers)| + 1]
    {
      if m !in numbers {
        numbers := numbers[m := |numbers| + 1];
      }
      n := numbers[m];
    }
  }

  /** The output once every value has its number; values the rule's validator turns down stay as they are. */
  function Render(pieces: seq<Piece>, passes: string -> bool, tag: string, numbers: map<string, nat>): string {
    if pieces == [] then ""
    else
      var n := |pieces| - 1;
      var p := pieces[n];
      Render(pieces[..n], passes, tag, numbers) +
      (if p.Key? && passes(p.s) && p.s in numbers then Placeholder(tag, numbers[p.s]) else p.s)
  }

  ghost predicate AllNumbered(pieces: seq<Piece>, passes: string -> bool, numbers: map<string, nat>) {
    forall k :: 0 <= k < |pieces| && pieces[k].Key? && passes(pieces[k].s) ==> pieces[k].s in numbers
  }

  lemma {:induction false} NumbersStay(pieces: seq<Piece>, passes: string -> bool, tag: string, a: map<string, nat>,
                                       b: map<string, nat>)
    requires AllNumbered(pieces, passes, a)
    requires forall m :: m in a ==> m in b && a[m] == b[m]
    ensures Render(pieces, passes, tag, a) == Render(pieces, passes, tag, b)
    ensures AllNumbered(pieces, passes, b)
  {
    if pieces != [] {
      NumbersStay(pieces[..|pieces| - 1], passes, tag, a, b);
    }
  }

  lemma RenderNext(pieces: seq<Piece>, p: Piece, passes: string -> bool, tag: string, numbers: map<string, nat>)
    ensures Render(pieces + [p], passes, tag, numbers) == Render(pieces, passes, tag, numbers) +
              (if p.Key? && passes(p.s) && p.s in numbers then Placeholder(tag, numbers[p.s]) else p.s)
  {
    assert (pieces + [p])[..|pieces|] == pieces;
  }

  lemma PlaceholderReads()
    ensures Placeholder("EMAIL", 1) == "[EMAIL_1]" && Placeholder("EMAIL", 12) == "[EMAIL_12]"
  {
  }

  // ----- the fast version

  /** The cost of searching: the positions the token was compared at, and the candidates the END line was tried at. */
  datatype Work = Work(looked: seq<nat>, tested: seq<nat>)

  ghost predicate Increasing(s: seq<nat>) {
    forall j, k :: 0 <= j < k < |s| ==> s[j] < s[k]
  }

  ghost predicate Below(s: seq<nat>, bound: int) {
    forall k :: 0 <= k < |s| ==> s[k] < bound
  }

  /** Different positions below a bound are no more than the bound. */
  lemma {:induction false} IncreasingFits(s: seq<nat>, bound: nat)
    requires Increasing(s) && Below(s, bound)
    ensures |s| <= bound
  {
    if s != [] {
      var n := |s| - 1;
      assert forall k :: 0 <= k < n ==> s[k] < s[n];
      IncreasingFits(s[..n], s[n]);
    }
  }

  /** The next place the END token occurs, or -1. `looked` gains every position it is compared at. */
  method IndexOf(text: string, from: nat, ghost looked0: seq<nat>) returns (r: int, ghost looked: seq<nat>)
    requires Increasing(looked0) && Below(looked0, from) && Below(looked0, |text|)
    ensures r == -1 || from <= r < |text|
    ensures r >= 0 ==> IsCandidate(text, r)
    ensures forall i: nat :: from <= i && (r == -1 || i < r) ==> !IsCandidate(text, i)
    ensures Increasing(looked) && Below(looked, if r == -1 then |text| else r + 1)
  {
    var i := from;
    looked := looked0;
    while i + |END_TOKEN| <= |text|
      invariant from <= i
      invariant forall j: nat :: from <= j < i ==> !IsCandidate(text, j)
      invariant Increasing(looked) && Below(looked, i) && Below(looked, |text|)
      decreases |text| - i
    {
      looked := looked + [i];
      if IsCandidate(text, i) {
        r := i;
        return;
      }
      i := i + 1;
    }
    r := -1;
  }

  /** No position is compared twice, no candidate is tried twice, and neither goes past the END line in hand. */
  ghost predicate Tried(text: string, work: Work, endAt: int) {
    && Increasing(work.looked) && Below(work.looked, |text|)
    && Increasing(work.tested) && (forall k :: 0 <= k < |work.tested| ==> IsCandidate(text, work.tested[k]))
    && (endAt >= 0 ==> Below(work.looked, endAt + 1) && Below(work.tested, endAt + 1))
    && (endAt == -2 ==> work == Work([], []))
  }

  /** Search for an END line from a position on. `work` gains every position compared and every candidate tried. */
  method SearchEnd(text: string, endLine: EndLine, from: nat, ghost endAt0: int, ghost work0: Work)
      returns (endAt: int, ghost work: Work)
    requires ValidEndLine(text, endLine)
    requires Tried(text, work0, endAt0) && endAt0 != -1 && -2 <= endAt0 < from
    ensures endAt == FirstEnd(text, endLine, from)
    ensures Tried(text, work, endAt)
  {
    hide IsCandidate, FirstEnd;
    ghost var looked: seq<nat>, tested: seq<nat> := work0.looked, work0.tested;
    var i: int;
    i, looked := IndexOf(text, from, looked);
    while i != -1
      invariant i == -1 || (from <= i < |text| && IsCandidate(text, i))
      invariant forall j: nat :: from <= j && (i == -1 || j < i) ==> endLine(j).None?
      invariant Tried(text, Work(looked, tested), -1)
      invariant i != -1 ==> Below(looked, i + 1) && Below(tested, i)
      decreases if i == -1 then 0 else |text| - i
    {
      tested := tested + [i];
      if endLine(i).Some? {
        endAt, work := i, Work(looked, tested);
        return;
      }
      i, looked := IndexOf(text, i + 1, looked);
    }
    endAt, work := -1, Work(looked, tested);
  }

  /** The output so far is the pieces so far, rendered, and earlier numbers still stand. */
  ghost predicate Written(out: string, pieces: seq<Piece>, passes: string -> bool, tag: string,
                          was: map<string, nat>, numbers: map<string, nat>) {
    && Numbered(numbers)
    && AllNumbered(pieces, passes, numbers)
    && out == Render(pieces, passes, tag, numbers)
    && (forall m :: m in was ==> m in numbers && numbers[m] == was[m])
  }

  method WriteKey(out0: string, key: string, passes: string -> bool, tag: string, numbering: Numbering,
                  ghost pieces: seq<Piece>, ghost was: map<string, nat>) returns (out: string)
    requires Written(out0, pieces, passes, tag, was, numbering.numbers)
    modifies numbering
    ensures Written(out, pieces + [Key(key)], passes, tag, was, numbering.numbers)
  {
    var replaced := key;
    if passes(key) {
      var n := numbering.Number(key);
      replaced := Placeholder(tag, n);
    }
    NumbersStay(pieces, passes, tag, old(numbering.numbers), numbering.numbers);
    RenderNext(pieces, Key(key), passes, tag, numbering.numbers);
    out := out0 + replaced;
  }

  lemma KeptWritten(out: string, pieces: seq<Piece>, kept: string, passes: string -> bool, tag: string,
                    was: map<string, nat>, numbers: map<string, nat>)
    requires Written(out, pieces, passes, tag, was, numbers)
    ensures Written(out + kept, pieces + [Keep(kept)], passes, tag, was, numbers)
  {
    RenderNext(pieces, Keep(kept), passes, tag, numbers);
  }

  lemma NothingWritten(passes: string -> bool, tag: string, numbers: map<string, nat>)
    requires Numbered(numbers)
    ensures Written("", [], passes, tag, numbers, numbers)
  {
  }

  lemma NothingTried(text: string)
    ensures Tried(text, Work([], []), -2)
  {
  }

  /** What the last search found still holds for every later position up to it. */
  lemma SearchStands(text: string, endLine: EndLine, from: nat, stop: nat)
    requires from <= stop
    requires FirstEnd(text, endLine, from) == -1 || stop <= FirstEnd(text, endLine, from)
    ensures FirstEnd(text, endLine, stop) == FirstEnd(text, endLine, from)
  {
  }

  /** What the search remembers between headers: where it last looked from, what it found there, and where that END line
      stops. */
  ghost predicate Remembers(text: string, endLine: EndLine, pos: nat, from: nat, endAt: int, endStop: nat,
                            work: Work) {
    && (endAt == -2 || (endAt == FirstEnd(text, endLine, from) && from <= pos))
    && (endAt >= 0 ==> endStop == endAt + endLine(endAt).GetOr(0))
    && Tried(text, work, endAt)
  }

  /** The end of the key whose header stops at `stop`, searching only past what is remembered. */
  method FindStop(text: string, endLine: EndLine, stop: nat, endAt0: int, endStop0: nat, ghost pos: nat,
                  ghost from0: nat, ghost work0: Work)
      returns (keyStop: nat, endAt: int, endStop: nat, ghost from: nat, ghost work: Work)
    requires ValidEndLine(text, endLine) && pos <= stop
             && Remembers(text, endLine, pos, from0, endAt0, endStop0, work0)
    ensures keyStop == KeyStop(text, endLine, stop)
    ensures Remembers(text, endLine, stop, from, endAt, endStop, work) && endAt != -2
  {
    hide FirstEnd, Tried, IsCandidate;
    endAt, endStop, from, work := endAt0, endStop0, from0, work0;
    if endAt != -1 && endAt < stop {
      from := stop;
      endAt, work := SearchEnd(text, endLine, stop, endAt, work);
      if endAt >= 0 {
        endStop := endAt + endLine(endAt).value;
      }
    } else {
      SearchStands(text, endLine, from, stop);
    }
    keyStop := if endAt != -1 && endAt - stop <= KEY_BODY_MAX then endStop else stop;
  }

  /** Same output as the simple version. No position is compared with the END token twice, so all the searches together
      compare at most |text| positions, and no END candidate is tried twice. */
  method RedactPrivateKeys(text: string, headers: seq<Span>, endLine: EndLine, passes: string -> bool, tag: string,
                           numbering: Numbering)
      returns (out: string, ghost work: Work)
    requires ValidHeaders(text, headers) && ValidEndLine(text, endLine) && numbering.Valid()
    modifies numbering
    ensures Written(out, Pieces(text, headers, endLine), passes, tag, old(numbering.numbers), numbering.numbers)
    ensures Increasing(work.looked) && Below(work.looked, |text|) && |work.looked| <= |text|
    ensures Increasing(work.tested) && forall k :: 0 <= k < |work.tested| ==> IsCandidate(text, work.tested[k])
  {
    hide Render, AllNumbered, Numbered, IsCandidate, FirstEnd, Increasing;
    out, work := "", Work([], []);
    NothingWritten(passes, tag, numbering.numbers);
    NothingTried(text);
    var pos: nat, endAt: int, endStop: nat := 0, -2, 0;
    ghost var pieces: seq<Piece> := [];
    ghost var from: nat := 0;
    for k := 0 to |headers|
      invariant CutBy(text, headers, endLine, k) == Cut(pieces, pos)
      invariant Remembers(text, endLine, pos, from, endAt, endStop, work)
      invariant Written(out, pieces, passes, tag, old(numbering.numbers), numbering.numbers)
    {
      var h := headers[k];
      if h.start < pos {
        continue;
      }
      var stop: nat;
      stop, endAt, endStop, from, work := FindStop(text, endLine, h.Stop(), endAt, endStop, pos, from, work);
      KeptWritten(out, pieces, text[pos..h.start], passes, tag, old(numbering.numbers), numbering.numbers);
      out := out + text[pos..h.start];
      pieces := pieces + [Keep(text[pos..h.start])];
      out := WriteKey(out, text[h.start..stop], passes, tag, numbering, pieces, old(numbering.numbers));
      pieces := pieces + [Key(text[h.start..stop])];
      pos := stop;
    }
    KeptWritten(out, pieces, text[pos..], passes, tag, old(numbering.numbers), numbering.numbers);
    out := out + text[pos..];
    IncreasingFits(work.looked, |text|);
  }
}

/** InMemoryHashStore from session_hash.py: bounded, per-session windows of content hashes. */
module HashStore {
  import opened Wrappers

  // `sessions` is a dict in insertion order: no two entries share an id.
  datatype Session = Session(id: string, hashes: seq<string>, touched: int)
  datatype Limits = Limits(ttl: int, maxSessions: nat, maxHashes: nat)

  function Find(ss: seq<Session>, id: string): (k: nat)
    ensures k <= |ss|
    ensures k < |ss| ==> ss[k].id == id
    ensures forall j :: 0 <= j < k ==> ss[j].id != id
  {
    if ss == [] then 0
    else
      var n := |ss| - 1;
      var k := Find(ss[..n], id);
      if k < n || ss[n].id == id then k else n + 1
  }

  predicate Holds(ss: seq<Session>, id: string) {
    Find(ss, id) < |ss|
  }

  /** The first of the least recently touched entries. */
  function Oldest(ss: seq<Session>): (k: nat)
    requires ss != []
    ensures k < |ss|
    ensures forall j :: 0 <= j < |ss| ==> ss[k].touched <= ss[j].touched
    ensures forall j :: 0 <= j < k ==> ss[k].touched < ss[j].touched
  {
    if |ss| == 1 then 0
    else
      var n := |ss| - 1;
      var k := Oldest(ss[..n]);
      if ss[n].touched < ss[k].touched then n else k
  }

  function Without<T>(s: seq<T>, k: nat): (r: seq<T>)
    requires k < |s|
    ensures |r| == |s| - 1
    ensures forall j :: 0 <= j < |r| ==> r[j] == if j < k then s[j] else s[j + 1]
  {
    s[..k] + s[k + 1..]
  }

  /** Dropping the oldest until few enough are left. */
  function Prune(ss: seq<Session>, max: nat): (r: seq<Session>)
    ensures |r| == if |ss| <= max then |ss| else max
    decreases |ss|
  {
    if |ss| <= max then ss else Prune(Without(ss, Oldest(ss)), max)
  }

  predicate Live(c: Limits, ss: seq<Session>, id: string, now: int) {
    Holds(ss, id) && now - ss[Find(ss, id)].touched <= c.ttl
  }

  /** The entries with one set: in place if its id is there, at the end if not. */
  function With(ss: seq<Session>, e: Session): seq<Session> {
    var k := Find(ss, e.id);
    if k < |ss| then ss[k := e] else ss + [e]
  }

  /** A live session is kept and marked; a missing or stale one starts afresh, and the oldest may have to go. */
  function Touch(c: Limits, ss: seq<Session>, id: string, now: int): seq<Session> {
    if Live(c, ss, id, now) then With(ss, ss[Find(ss, id)].(touched := now))
    else Prune(With(ss, Session(id, [], now)), c.maxSessions)
  }

  /** First in, first out by first sight: a hash already in the window keeps its place. */
  function Push(hashes: seq<string>, h: string, cap: nat): seq<string> {
    if h in hashes then hashes else LastN(hashes + [h], cap)
  }

  function AddTo(c: Limits, ss: seq<Session>, id: string, h: string, now: int): seq<Session> {
    var t := Touch(c, ss, id, now);
    if Holds(t, id) then With(t, t[Find(t, id)].(hashes := Push(t[Find(t, id)].hashes, h, c.maxHashes))) else t
  }

  function HashesOf(ss: seq<Session>, id: string): seq<string> {
    if Holds(ss, id) then ss[Find(ss, id)].hashes else []
  }

  class InMemoryHashStore {
    const limits: Limits
    var sessions: seq<Session>

    constructor (limits: Limits)
      ensures this.limits == limits && sessions == []
    {
      this.limits := limits;
      sessions := [];
    }

    method PruneSessions()
      modifies this
      ensures sessions == Prune(old(sessions), limits.maxSessions)
    {
      while |sessions| > limits.maxSessions
        invariant Prune(sessions, limits.maxSessions) == Prune(old(sessions), limits.maxSessions)
        decreases |sessions|
      {
        var k := Oldest(sessions);
        sessions := Without(sessions, k);
      }
    }

    method GetSession(id: string, now: int) returns (hashes: seq<string>)
      modifies this
      ensures sessions == Touch(limits, old(sessions), id, now)
      ensures hashes == if Live(limits, old(sessions), id, now) then HashesOf(old(sessions), id) else []
    {
      var k := Find(sessions, id);
      if k == |sessions| || now - sessions[k].touched > limits.ttl {
        var entry := Session(id, [], now);
        if k < |sessions| {
          sessions := sessions[k := entry];
        } else {
          sessions := sessions + [entry];
        }
        PruneSessions();
        hashes := [];
      } else {
        hashes := sessions[k].hashes;
        sessions := sessions[k := sessions[k].(touched := now)];
      }
    }

    method IsDuplicate(id: string, h: string, now: int) returns (r: bool)
      modifies this
      ensures sessions == Touch(limits, old(sessions), id, now)
      ensures r <==> Live(limits, old(sessions), id, now) && h in HashesOf(old(sessions), id)
    {
      var hashes := GetSession(id, now);
      r := h in hashes;
    }

    method Add(id: string, h: string, now: int)
      modifies this
      ensures sessions == AddTo(limits, old(sessions), id, h, now)
    {
      var _ := GetSession(id, now);
      var k := Find(sessions, id);
      if k < |sessions| {
        var hashes := sessions[k].hashes;
        if h !in hashes {
          hashes := Trim(hashes + [h], limits.maxHashes);
        }
        sessions := sessions[k := sessions[k].(hashes := hashes)];
      }
    }
  }

  method Trim(hashes: seq<string>, cap: nat) returns (r: seq<string>)
    ensures r == LastN(hashes, cap)
  {
    r := hashes;
    while |r| > cap
      invariant LastN(r, cap) == LastN(hashes, cap)
    {
      r := r[1..];
    }
  }

  // ----- histories

  datatype Op = Query(id: string, hash: string, now: int) | Add(id: string, hash: string, now: int)

  function Apply(c: Limits, ss: seq<Session>, op: Op): seq<Session> {
    match op
    case Query(id, _, now) => Touch(c, ss, id, now)
    case Add(id, h, now) => AddTo(c, ss, id, h, now)
  }

  /** The store after the first n operations. */
  function After(c: Limits, ops: seq<Op>, n: nat): seq<Session>
    requires n <= |ops|
  {
    if n == 0 then [] else Apply(c, After(c, ops, n - 1), ops[n - 1])
  }

  ghost predicate Unique(ss: seq<Session>) {
    forall i, j :: 0 <= i < j < |ss| ==> ss[i].id != ss[j].id
  }

  ghost predicate Bounded(c: Limits, ss: seq<Session>) {
    && |ss| <= c.maxSessions
    && Unique(ss)
    && forall k :: 0 <= k < |ss| ==> |ss[k].hashes| <= c.maxHashes
  }

  /** An entry of the store is found under its id, and only there. */
  lemma FoundAt(ss: seq<Session>, k: nat)
    requires Unique(ss) && k < |ss|
    ensures Find(ss, ss[k].id) == k
  {
  }

  lemma WithEntry(ss: seq<Session>, e: Session, id: string)
    requires Unique(ss)
    ensures Unique(With(ss, e))
    ensures Holds(With(ss, e), id) <==> id == e.id || Holds(ss, id)
    ensures Holds(With(ss, e), id) ==> With(ss, e)[Find(With(ss, e), id)] == if id == e.id then e else ss[Find(ss, id)]
  {
    hide Find;
    var t, k := With(ss, e), Find(ss, e.id);
    if id == e.id {
      FoundAt(t, k);
    } else if Holds(ss, id) {
      assert t[Find(ss, id)] == ss[Find(ss, id)];
      FoundAt(t, Find(ss, id));
    } else {
      assert forall j :: 0 <= j < |t| ==> t[j].id != id;
    }
  }

  lemma WithoutEntry(ss: seq<Session>, k: nat, id: string)
    requires Unique(ss) && k < |ss|
    ensures Unique(Without(ss, k))
    ensures Holds(Without(ss, k), id) <==> Holds(ss, id) && Find(ss, id) != k
    ensures Holds(Without(ss, k), id) ==> Without(ss, k)[Find(Without(ss, k), id)] == ss[Find(ss, id)]
  {
    hide Find;
    var t, i := Without(ss, k), Find(ss, id);
    if Holds(t, id) {
      var j := Find(t, id);
      FoundAt(ss, if j < k then j else j + 1);
    } else if i < |ss| && i != k {
      FoundAt(t, if i < k then i else i - 1);
    }
  }

  lemma {:induction false} PruneEntry(ss: seq<Session>, max: nat, id: string)
    requires Unique(ss)
    ensures Unique(Prune(ss, max))
    ensures Holds(Prune(ss, max), id) ==> Holds(ss, id) && Prune(ss, max)[Find(Prune(ss, max), id)] == ss[Find(ss, id)]
    decreases |ss|
  {
    hide Find;
    if |ss| > max {
      WithoutEntry(ss, Oldest(ss), id);
      PruneEntry(Without(ss, Oldest(ss)), max, id);
    }
  }

  /** What touching a session does to it, and to the others that stay. */
  lemma TouchEntry(c: Limits, ss: seq<Session>, id: string, now: int, other: string)
    requires Unique(ss)
    ensures var t := Touch(c, ss, id, now);
            && Unique(t)
            && (Holds(t, id) ==>
                  t[Find(t, id)] == Session(id, if Live(c, ss, id, now) then HashesOf(ss, id) else [], now))
            && (Holds(t, other) && other != id ==> Holds(ss, other) && t[Find(t, other)] == ss[Find(ss, other)])
  {
    hide Find, Prune, With;
    if Live(c, ss, id, now) {
      WithEntry(ss, ss[Find(ss, id)].(touched := now), other);
      WithEntry(ss, ss[Find(ss, id)].(touched := now), id);
    } else {
      WithEntry(ss, Session(id, [], now), other);
      WithEntry(ss, Session(id, [], now), id);
      PruneEntry(With(ss, Session(id, [], now)), c.maxSessions, other);
      PruneEntry(With(ss, Session(id, [], now)), c.maxSessions, id);
    }
  }

  lemma HashesStayBounded(c: Limits, ss: seq<Session>, op: Op, other: string)
    requires Bounded(c, ss) && Holds(Apply(c, ss, op), other)
    ensures Unique(Apply(c, ss, op)) && |HashesOf(Apply(c, ss, op), other)| <= c.maxHashes
  {
    hide Find, Touch;
    var t := Touch(c, ss, op.id, op.now);
    TouchEntry(c, ss, op.id, op.now, other);
    TouchEntry(c, ss, op.id, op.now, op.id);
    if op.Add? && Holds(t, op.id) {
      var e := t[Find(t, op.id)];
      WithEntry(t, e.(hashes := Push(e.hashes, op.hash, c.maxHashes)), other);
    }
  }

  lemma ApplyUnique(c: Limits, ss: seq<Session>, op: Op)
    requires Unique(ss)
    ensures Unique(Apply(c, ss, op))
  {
    hide Find, Touch;
    var t := Touch(c, ss, op.id, op.now);
    TouchEntry(c, ss, op.id, op.now, op.id);
    if op.Add? && Holds(t, op.id) {
      WithEntry(t, t[Find(t, op.id)].(hashes := Push(t[Find(t, op.id)].hashes, op.hash, c.maxHashes)), op.id);
    }
  }

  lemma ApplyBounded(c: Limits, ss: seq<Session>, op: Op)
    requires Bounded(c, ss)
    ensures Bounded(c, Apply(c, ss, op))
  {
    var a := Apply(c, ss, op);
    ApplyUnique(c, ss, op);
    assert |a| <= c.maxSessions;
    hide Apply;
    forall k | 0 <= k < |a| ensures |a[k].hashes| <= c.maxHashes {
      FoundAt(a, k);
      HashesStayBounded(c, ss, op, a[k].id);
    }
  }

  /** Over every history neither cap is ever exceeded. */
  lemma {:induction false} CapsHold(c: Limits, ops: seq<Op>, n: nat)
    requires n <= |ops|
    ensures Bounded(c, After(c, ops, n))
  {
    if n > 0 {
      CapsHold(c, ops, n - 1);
      ApplyBounded(c, After(c, ops, n - 1), ops[n - 1]);
    }
  }

  // ----- the window of a session

  /** The hashes added to a session since it was last started afresh: after it was reset for age, or evicted. */
  function Log(c: Limits, ops: seq<Op>, n: nat, id: string): seq<string>
    requires n <= |ops|
  {
    if n == 0 then []
    else
      var op := ops[n - 1];
      if op.id != id then Log(c, ops, n - 1, id)
      else (if Live(c, After(c, ops, n - 1), id, op.now) then Log(c, ops, n - 1, id) else []) +
           (if op.Add? then [op.hash] else [])
  }

  function FifoWindow(log: seq<string>, cap: nat): seq<string> {
    if log == [] then [] else Push(FifoWindow(log[..|log| - 1], cap), log[|log| - 1], cap)
  }

  lemma FifoNext(log: seq<string>, h: string, cap: nat)
    ensures FifoWindow(log + [h], cap) == Push(FifoWindow(log, cap), h, cap)
  {
    assert (log + [h])[..|log|] == log;
  }

  lemma LogNext(c: Limits, ops: seq<Op>, n: nat, id: string)
    requires n < |ops|
    ensures After(c, ops, n + 1) == Apply(c, After(c, ops, n), ops[n])
    ensures var op, cap := ops[n], c.maxHashes;
            var stays := op.id != id || Live(c, After(c, ops, n), id, op.now);
            var kept := if stays then FifoWindow(Log(c, ops, n, id), cap) else [];
            FifoWindow(Log(c, ops, n + 1, id), cap) == if op.id == id && op.Add? then Push(kept, op.hash, cap) else kept
  {
    hide After, Live, Push;
    var op := ops[n];
    assert After(c, ops, n + 1) == Apply(c, After(c, ops, n), ops[n]) by {
      AfterNext(c, ops, n);
    }
    var log := if op.id != id || Live(c, After(c, ops, n), id, op.now) then Log(c, ops, n, id) else [];
    FifoNext(log, op.hash, c.maxHashes);
    assert log + [] == log;
  }

  lemma AfterNext(c: Limits, ops: seq<Op>, n: nat)
    requires n < |ops|
    ensures After(c, ops, n + 1) == Apply(c, After(c, ops, n), ops[n])
  {
  }

  lemma {:induction false} SessionsHoldWindows(c: Limits, ops: seq<Op>, n: nat, id: string)
    requires n <= |ops|
    requires Holds(After(c, ops, n), id)
    ensures HashesOf(After(c, ops, n), id) == FifoWindow(Log(c, ops, n, id), c.maxHashes)
  {
    hide *;
    if n == 0 {
      NothingHeld(c, ops, id);
    } else {
      LogNext(c, ops, n - 1, id);
      ApplyHashesAt(c, ops, n - 1, id);
      if ops[n - 1].id != id || Live(c, After(c, ops, n - 1), id, ops[n - 1].now) {
        SessionsHoldWindows(c, ops, n - 1, id);
      }
    }
  }

  lemma NothingHeld(c: Limits, ops: seq<Op>, id: string)
    ensures !Holds(After(c, ops, 0), id)
  {
  }

  lemma ApplyHashesAt(c: Limits, ops: seq<Op>, n: nat, id: string)
    requires n < |ops| && Holds(After(c, ops, n + 1), id)
    ensures var ss, op := After(c, ops, n), ops[n];
            && (op.id != id || Live(c, ss, id, op.now) ==> Holds(ss, id))
            && (var kept := if op.id != id || Live(c, ss, id, op.now) then HashesOf(ss, id) else [];
                HashesOf(After(c, ops, n + 1), id)
                    == if op.id == id && op.Add? then Push(kept, op.hash, c.maxHashes) else kept)
  {
    AfterNext(c, ops, n);
    CapsHold(c, ops, n);
    hide After, Apply, Find, HashesOf;
    ApplyHashes(c, After(c, ops, n), ops[n], id);
  }

  lemma ApplyHashes(c: Limits, ss: seq<Session>, op: Op, id: string)
    requires Unique(ss) && Holds(Apply(c, ss, op), id)
    ensures op.id != id ==> Holds(ss, id)
    ensures Live(c, ss, id, op.now) ==> Holds(ss, id)
    ensures var kept := if op.id != id || Live(c, ss, id, op.now) then HashesOf(ss, id) else [];
            HashesOf(Apply(c, ss, op), id) == if op.id == id && op.Add? then Push(kept, op.hash, c.maxHashes) else kept
  {
    hide Find, Touch, AddTo, Push;
    TouchEntry(c, ss, op.id, op.now, id);
    if op.Add? {
      AddEntry(c, ss, op.id, op.hash, op.now, id);
    }
  }

  lemma AddEntry(c: Limits, ss: seq<Session>, id: string, h: string, now: int, other: string)
    requires Unique(ss)
    ensures var t, a := Touch(c, ss, id, now), AddTo(c, ss, id, h, now);
            && Holds(a, other) == Holds(t, other)
            && HashesOf(a, other) == if other == id && Holds(t, id) then Push(HashesOf(t, id), h, c.maxHashes)
               else HashesOf(t, other)
  {
    hide Find, Touch;
    var t := Touch(c, ss, id, now);
    TouchEntry(c, ss, id, now, id);
    if Holds(t, id) {
      WithEntry(t, t[Find(t, id)].(hashes := Push(t[Find(t, id)].hashes, h, c.maxHashes)), other);
    }
  }

  /** A query says "duplicate" exactly when the hash is in the window of what was added to that session since
      it was last reset or evicted. */
  lemma QueryAnswersFromWindow(c: Limits, ops: seq<Op>, n: nat)
    requires n < |ops|
    ensures var ss, op := After(c, ops, n), ops[n];
            (Live(c, ss, op.id, op.now) && op.hash in HashesOf(ss, op.id)) <==>
            (Live(c, ss, op.id, op.now) && op.hash in FifoWindow(Log(c, ops, n, op.id), c.maxHashes))
  {
    if Live(c, After(c, ops, n), ops[n].id, ops[n].now) {
      SessionsHoldWindows(c, ops, n, ops[n].id);
    }
  }

  /** The distinct hashes of a log in order of first sight. */
  function FirstSeen(log: seq<string>): seq<string> {
    if log == [] then []
    else
      var before, h := FirstSeen(log[..|log| - 1]), log[|log| - 1];
      if h in before then before else before + [h]
  }

  lemma {:induction false} FirstSeenIsLog(log: seq<string>, h: string)
    ensures h in FirstSeen(log) <==> h in log
  {
    if log != [] {
      var n := |log| - 1;
      FirstSeenIsLog(log[..n], h);
      assert log == log[..n] + [log[n]];
    }
  }

  /** The window never holds what was not added; and while no more distinct hashes than the cap were added,
      it holds them all, in order of first sight. */
  lemma {:induction false} WindowMeaning(log: seq<string>, cap: nat, h: string)
    ensures h in FifoWindow(log, cap) ==> h in log
    ensures |FirstSeen(log)| <= cap ==> FifoWindow(log, cap) == FirstSeen(log)
    ensures |FirstSeen(log)| <= cap ==> (h in FifoWindow(log, cap) <==> h in log)
  {
    if log != [] {
      var n := |log| - 1;
      WindowMeaning(log[..n], cap, h);
      assert log == log[..n] + [log[n]];
    }
    FirstSeenIsLog(log, h);
  }

  // ----- who is evicted

  ghost predicate TouchedBy(ss: seq<Session>, now: int) {
    forall k :: 0 <= k < |ss| ==> ss[k].touched <= now
  }

  lemma PruneOne(ss: seq<Session>, max: nat)
    requires |ss| == max + 1
    ensures Prune(ss, max) == Without(ss, Oldest(ss))
  {
  }

  /** With a clock that does not run backwards and room for one session, the session just touched is there. */
  lemma TouchedStays(c: Limits, ss: seq<Session>, id: string, now: int)
    requires Bounded(c, ss) && TouchedBy(ss, now) && c.maxSessions >= 1
    ensures Holds(Touch(c, ss, id, now), id)
  {
    hide Find;
    if Live(c, ss, id, now) {
      WithEntry(ss, ss[Find(ss, id)].(touched := now), id);
    } else {
      var e := Session(id, [], now);
      var grown := With(ss, e);
      WithEntry(ss, e, id);
      if |grown| > c.maxSessions {
        PruneOne(grown, c.maxSessions);
        assert grown == ss + [e] && grown[0] == ss[0];
        WithoutEntry(grown, Oldest(grown), id);
      }
    }
  }

  lemma {:induction false} ClockHolds(c: Limits, ops: seq<Op>, n: nat, now: int)
    requires n <= |ops|
    requires forall i :: 0 <= i < n ==> ops[i].now <= now
    ensures TouchedBy(After(c, ops, n), now)
  {
    hide Find, Touch, AddTo;
    if n > 0 {
      var before, op, after := After(c, ops, n - 1), ops[n - 1], After(c, ops, n);
      ClockHolds(c, ops, n - 1, now);
      CapsHold(c, ops, n - 1);
      CapsHold(c, ops, n);
      forall k | 0 <= k < |after| ensures after[k].touched <= now {
        FoundAt(after, k);
        TouchEntry(c, before, op.id, op.now, after[k].id);
        if op.Add? {
          AddTouched(c, before, op.id, op.hash, op.now, after[k].id);
        }
      }
    }
  }

  lemma AddTouched(c: Limits, ss: seq<Session>, id: string, h: string, now: int, other: string)
    requires Unique(ss) && Holds(AddTo(c, ss, id, h, now), other)
    ensures var t, a := Touch(c, ss, id, now), AddTo(c, ss, id, h, now);
            Holds(t, other) && a[Find(a, other)].touched == t[Find(t, other)].touched
  {
    hide Find, Touch;
    var t := Touch(c, ss, id, now);
    TouchEntry(c, ss, id, now, id);
    if Holds(t, id) {
      WithEntry(t, t[Find(t, id)].(hashes := Push(t[Find(t, id)].hashes, h, c.maxHashes)), other);
    }
  }

  /** Over every history with such a clock, the session an operation names is never the one evicted. */
  lemma NamedSessionStays(c: Limits, ops: seq<Op>, n: nat)
    requires n < |ops| && c.maxSessions >= 1
    requires forall i :: 0 <= i < n ==> ops[i].now <= ops[n].now
    ensures Holds(After(c, ops, n + 1), ops[n].id)
  {
    hide Find, Touch, AddTo;
    var op := ops[n];
    CapsHold(c, ops, n);
    ClockHolds(c, ops, n, op.now);
    TouchedStays(c, After(c, ops, n), op.id, op.now);
    AddEntry(c, After(c, ops, n), op.id, op.hash, op.now, op.id);
  }

  /** A session that a touch evicts was touched no later than any that stays. */
  lemma EvictsOldest(c: Limits, ss: seq<Session>, id: string, now: int, gone: string, kept: string)
    requires Bounded(c, ss)
    requires Holds(ss, gone) && !Holds(Touch(c, ss, id, now), gone)
    requires kept != id && Holds(Touch(c, ss, id, now), kept)
    ensures Holds(ss, kept) && ss[Find(ss, gone)].touched <= ss[Find(ss, kept)].touched
  {
    hide Find;
    TouchEntry(c, ss, id, now, kept);
    if Live(c, ss, id, now) {
      WithEntry(ss, ss[Find(ss, id)].(touched := now), gone);
    } else {
      var e := Session(id, [], now);
      var grown := With(ss, e);
      WithEntry(ss, e, gone);
      WithEntry(ss, e, kept);
      if |grown| > c.maxSessions {
        PruneOne(grown, c.maxSessions);
        WithoutEntry(grown, Oldest(grown), gone);
        assert gone != id;
      }
    }
  }

  /** Once a hash is added it is seen again until the session is older than its time to live, and not after. */
  lemma SeenUntilStale(c: Limits, ss: seq<Session>, id: string, h: string, now: int, later: int)
    requires Bounded(c, ss) && TouchedBy(ss, now) && c.maxSessions >= 1 && c.maxHashes >= 1
    ensures var a := AddTo(c, ss, id, h, now);
            Live(c, a, id, later) && h in HashesOf(a, id) <==> later - now <= c.ttl
  {
    hide Find, Touch;
    TouchEntry(c, ss, id, now, id);
    TouchedStays(c, ss, id, now);
    AddEntry(c, ss, id, h, now, id);
    AddTouched(c, ss, id, h, now, id);
    PushHolds(HashesOf(Touch(c, ss, id, now), id), h, c.maxHashes);
    hide AddTo, Push;
  }

  lemma PushHolds(hashes: seq<string>, h: string, cap: nat)
    requires cap >= 1
    ensures h in Push(hashes, h, cap)
  {
    var all := hashes + [h];
    assert h !in hashes ==> LastN(all, cap)[|LastN(all, cap)| - 1] == h;
  }

  /** A full window lets the hash seen first go; one that is not full, and one that holds the hash, let none go. */
  lemma FirstSeenGoesFirst(hashes: seq<string>, h: string, cap: nat)
    requires |hashes| <= cap
    ensures h in hashes ==> Push(hashes, h, cap) == hashes
    ensures h !in hashes && |hashes| < cap ==> Push(hashes, h, cap) == hashes + [h]
    ensures h !in hashes && |hashes| == cap > 0 ==> Push(hashes, h, cap) == hashes[1..] + [h]
  {
  }

  /** Nobody is evicted while there is room, or for a session that is there already. */
  lemma NothingEvictedInVain(c: Limits, ss: seq<Session>, id: string, now: int, other: string)
    requires Bounded(c, ss) && (|ss| < c.maxSessions || Holds(ss, id))
    ensures Holds(Touch(c, ss, id, now), other) <==> other == id || Holds(ss, other)
  {
    hide Find;
    WithEntry(ss, Session(id, [], now), other);
    if Live(c, ss, id, now) {
      WithEntry(ss, ss[Find(ss, id)].(touched := now), other);
    }
  }
}

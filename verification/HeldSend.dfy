/** Held sends of browser_extension/content.js: a warned send waits for the user, for at most a minute, or until the
    relay goes. */
module HeldSend {
  import opened Wrappers

  datatype Choice = Redacted | Sent | Cancelled | Removed | NoRelay

  // What a warned send needs once it is decided: the rules to redact by, and those to keep redacting when sent anyway.
  datatype Held = Held(id: nat, raw: string, names: set<string>, keep: set<string>)

  // The fate of one send.
  datatype Outcome = Refused | Goes(body: string)
  datatype Decision = Decision(held: Held, choice: Choice)

  // `waiting` is a Map in insertion order. Ids are never reused: each send takes the next one.
  datatype State = State(port: bool, next: nat, waiting: seq<Held>, timers: set<nat>, decided: seq<Decision>)

  // An answer may name any id, and may say anything: None is a choice that is not on the list.
  datatype Event =
    | Ask(raw: string, names: set<string>, keep: set<string>, postFails: bool)
    | Answer(id: nat, choice: Option<Choice>)
    | Timeout(id: nat)
    | RelayGone
    | RelayConnected

  type Redactor = (string, set<string>) -> string

  function Start(): State {
    State(false, 0, [], {}, [])
  }

  predicate IsChoice(choice: Option<Choice>) {
    choice.Some? && choice.value != NoRelay
  }

  function Find(waiting: seq<Held>, id: nat): (k: nat)
    ensures k <= |waiting|
    ensures k < |waiting| ==> waiting[k].id == id
    ensures k == |waiting| ==> forall j :: 0 <= j < |waiting| ==> waiting[j].id != id
  {
    if waiting == [] then 0 else if waiting[0].id == id then 0 else 1 + Find(waiting[1..], id)
  }

  function Resolve(s: State, k: nat, choice: Choice): State
    requires k < |s.waiting|
  {
    s.(waiting := s.waiting[..k] + s.waiting[k + 1..],
       timers := s.timers - {s.waiting[k].id},
       decided := s.decided + [Decision(s.waiting[k], choice)])
  }

  /** Nothing can answer any more. */
  function ResolveAll(s: State): State
    decreases |s.waiting|
  {
    if s.waiting == [] then s else ResolveAll(Resolve(s, 0, NoRelay))
  }

  function Step(s: State, e: Event): State {
    match e
    case Ask(raw, names, keep, postFails) =>
      var held := Held(s.next, raw, names, keep);
      if !s.port then s.(next := s.next + 1, decided := s.decided + [Decision(held, NoRelay)])
      else
        var asked := s.(next := s.next + 1, waiting := s.waiting + [held], timers := s.timers + {s.next});
        if postFails then ResolveAll(asked.(port := false)) else asked
    case Answer(id, choice) =>
      var k := Find(s.waiting, id);
      if k == |s.waiting| || !IsChoice(choice) then s else Resolve(s, k, choice.value)
    case Timeout(id) =>
      if id !in s.timers then s
      else
        var k := Find(s.waiting, id);
        if k == |s.waiting| then s.(timers := s.timers - {id}) else Resolve(s, k, Cancelled)
    case RelayGone => ResolveAll(s.(port := false))
    case RelayConnected => s.(port := true)
  }

  function Run(s: State, events: seq<Event>): State {
    if events == [] then s else Step(Run(s, events[..|events| - 1]), events[|events| - 1])
  }

  /** What a decision does to the send. */
  function Effect(redact: Redactor, d: Decision): Outcome {
    match d.choice
    case Cancelled => Refused
    case Sent => Goes(redact(d.held.raw, d.held.keep))
    case _ => Goes(redact(d.held.raw, d.held.names))
  }

  // ----- each send is decided once

  function Waits(waiting: seq<Held>, id: nat): nat {
    if waiting == [] then 0 else (if waiting[0].id == id then 1 else 0) + Waits(waiting[1..], id)
  }

  function Decisions(decided: seq<Decision>, id: nat): nat {
    if decided == [] then 0
    else Decisions(decided[..|decided| - 1], id) + if decided[|decided| - 1].held.id == id then 1 else 0
  }

  function Places(s: State, id: nat): nat {
    Waits(s.waiting, id) + Decisions(s.decided, id)
  }

  lemma {:induction false} WaitsWithout(waiting: seq<Held>, k: nat, id: nat)
    requires k < |waiting|
    ensures Waits(waiting[..k] + waiting[k + 1..], id) == Waits(waiting, id) - if waiting[k].id == id then 1 else 0
  {
    var rest := waiting[..k] + waiting[k + 1..];
    if k == 0 {
      assert rest == waiting[1..];
    } else {
      WaitsWithout(waiting[1..], k - 1, id);
      assert rest[1..] == waiting[1..][..k - 1] + waiting[1..][k..];
    }
  }

  lemma {:induction false} WaitsAppend(waiting: seq<Held>, h: Held, id: nat)
    ensures Waits(waiting + [h], id) == Waits(waiting, id) + if h.id == id then 1 else 0
  {
    if waiting != [] {
      WaitsAppend(waiting[1..], h, id);
      assert (waiting + [h])[1..] == waiting[1..] + [h];
    }
  }

  lemma {:induction false} WaitsSome(waiting: seq<Held>, id: nat)
    ensures Waits(waiting, id) > 0 <==> Find(waiting, id) < |waiting|
  {
    if waiting != [] {
      WaitsSome(waiting[1..], id);
    }
  }

  lemma DecisionsAppend(decided: seq<Decision>, d: Decision, id: nat)
    ensures Decisions(decided + [d], id) == Decisions(decided, id) + if d.held.id == id then 1 else 0
  {
    Init(decided, d);
  }

  lemma ResolvePlaces(s: State, k: nat, choice: Choice, id: nat)
    requires k < |s.waiting|
    ensures Places(Resolve(s, k, choice), id) == Places(s, id)
  {
    WaitsWithout(s.waiting, k, id);
    DecisionsAppend(s.decided, Decision(s.waiting[k], choice), id);
  }

  lemma {:induction false} ResolveAllPlaces(s: State, id: nat)
    ensures Places(ResolveAll(s), id) == Places(s, id)
    ensures ResolveAll(s).waiting == [] && ResolveAll(s).next == s.next && ResolveAll(s).port == s.port
    decreases |s.waiting|
  {
    if s.waiting != [] {
      ResolvePlaces(s, 0, NoRelay, id);
      ResolveAllPlaces(Resolve(s, 0, NoRelay), id);
    }
  }

  lemma StepPlaces(s: State, e: Event, id: nat)
    ensures Places(Step(s, e), id) == Places(s, id) + if e.Ask? && id == s.next then 1 else 0
    ensures Step(s, e).next == s.next + if e.Ask? then 1 else 0
  {
    match e
    case Ask(raw, names, keep, postFails) =>
      var held := Held(s.next, raw, names, keep);
      var asked := s.(next := s.next + 1, waiting := s.waiting + [held], timers := s.timers + {s.next});
      WaitsAppend(s.waiting, held, id);
      DecisionsAppend(s.decided, Decision(held, NoRelay), id);
      ResolveAllPlaces(asked.(port := false), id);
      hide Waits, Decisions, ResolveAll;
    case Answer(i, choice) =>
      hide Waits, Decisions;
      var k := Find(s.waiting, i);
      if k < |s.waiting| && IsChoice(choice) {
        ResolvePlaces(s, k, choice.value, id);
      }
    case Timeout(i) =>
      hide Waits, Decisions;
      var k := Find(s.waiting, i);
      if k < |s.waiting| {
        ResolvePlaces(s, k, Cancelled, id);
      }
    case RelayGone =>
      ResolveAllPlaces(s.(port := false), id);
    case RelayConnected =>
  }

  /** On every run, each send ever asked about is waiting or decided, never both and never twice. */
  lemma {:induction false} DecidedOnce(events: seq<Event>, id: nat)
    ensures var s := Run(Start(), events); Places(s, id) == if id < s.next then 1 else 0
  {
    if events != [] {
      DecidedOnce(events[..|events| - 1], id);
      StepPlaces(Run(Start(), events[..|events| - 1]), events[|events| - 1], id);
      hide Places, Step;
    }
  }

  // ----- timers, and answers that come too late

  ghost predicate TimersMatch(s: State) {
    forall id: nat :: id in s.timers <==> Waits(s.waiting, id) > 0
  }

  /** A timer runs for exactly the sends that wait, and none waits without a relay. */
  ghost predicate Timed(s: State) {
    TimersMatch(s) && (!s.port ==> s.waiting == [])
  }

  ghost predicate OnePlaceEach(s: State) {
    forall id: nat :: Places(s, id) == if id < s.next then 1 else 0
  }

  lemma ResolveTimers(s: State, k: nat, choice: Choice)
    requires TimersMatch(s) && OnePlaceEach(s) && k < |s.waiting|
    ensures TimersMatch(Resolve(s, k, choice)) && OnePlaceEach(Resolve(s, k, choice))
  {
    var h, t := s.waiting[k], Resolve(s, k, choice);
    assert Places(s, h.id) <= 1;
    forall id: nat ensures id in t.timers <==> Waits(t.waiting, id) > 0 {
      WaitsWithout(s.waiting, k, id);
    }
    hide Places, Waits;
    forall id: nat ensures Places(t, id) == if id < t.next then 1 else 0 {
      ResolvePlaces(s, k, choice, id);
    }
  }

  lemma {:induction false} ResolveAllTimers(s: State)
    requires TimersMatch(s) && OnePlaceEach(s)
    ensures TimersMatch(ResolveAll(s))
    decreases |s.waiting|
  {
    if s.waiting != [] {
      hide TimersMatch, OnePlaceEach, Resolve;
      ResolveTimers(s, 0, NoRelay);
      ResolveAllPlaces(s, 0);
      ResolveAllTimers(Resolve(s, 0, NoRelay));
    }
  }

  lemma GoneTimed(s: State)
    requires TimersMatch(s) && OnePlaceEach(s)
    ensures Timed(ResolveAll(s.(port := false)))
  {
    var t := s.(port := false);
    forall id: nat ensures Places(t, id) == if id < t.next then 1 else 0 {
      assert Places(s, id) == if id < s.next then 1 else 0;
    }
    ResolveAllTimers(t);
    ResolveAllPlaces(t, 0);
    hide ResolveAll;
  }

  lemma AskTimed(s: State, raw: string, names: set<string>, keep: set<string>, postFails: bool)
    requires Timed(s) && OnePlaceEach(s)
    ensures Timed(Step(s, Ask(raw, names, keep, postFails)))
  {
    var held := Held(s.next, raw, names, keep);
    var asked := s.(next := s.next + 1, waiting := s.waiting + [held], timers := s.timers + {s.next});
    forall id: nat ensures id in asked.timers <==> Waits(asked.waiting, id) > 0 {
      WaitsAppend(s.waiting, held, id);
    }
    forall id: nat ensures Places(asked, id) == if id < asked.next then 1 else 0 {
      WaitsAppend(s.waiting, held, id);
      assert Places(s, id) == if id < s.next then 1 else 0;
    }
    hide Waits, ResolveAll;
    GoneTimed(asked);
  }

  lemma StepTimed(s: State, e: Event)
    requires Timed(s) && OnePlaceEach(s)
    ensures Timed(Step(s, e))
  {
    match e
    case Ask(raw, names, keep, postFails) =>
      AskTimed(s, raw, names, keep, postFails);
    case Answer(id, choice) =>
      hide TimersMatch, OnePlaceEach;
      var k := Find(s.waiting, id);
      if k < |s.waiting| && IsChoice(choice) {
        ResolveTimers(s, k, choice.value);
      }
    case Timeout(id) =>
      WaitsSome(s.waiting, id);
      hide OnePlaceEach;
      if id in s.timers {
        ResolveTimers(s, Find(s.waiting, id), Cancelled);
      }
    case RelayGone =>
      hide TimersMatch, OnePlaceEach;
      GoneTimed(s);
    case RelayConnected =>
  }

  lemma {:induction false} AlwaysTimed(events: seq<Event>)
    ensures Timed(Run(Start(), events))
  {
    if events != [] {
      var before := Run(Start(), events[..|events| - 1]);
      AlwaysTimed(events[..|events| - 1]);
      forall id: nat ensures Places(before, id) == if id < before.next then 1 else 0 {
        DecidedOnce(events[..|events| - 1], id);
      }
      assert OnePlaceEach(before);
      hide Timed, OnePlaceEach;
      StepTimed(before, events[|events| - 1]);
    }
  }

  /** Once a send is decided, no answer and no timer changes anything; nor does an answer to an unknown id. */
  lemma LateIsIgnored(events: seq<Event>, id: nat, choice: Option<Choice>)
    requires var s := Run(Start(), events); Decisions(s.decided, id) > 0 || id >= s.next
    ensures Step(Run(Start(), events), Answer(id, choice)) == Run(Start(), events)
    ensures Step(Run(Start(), events), Timeout(id)) == Run(Start(), events)
  {
    DecidedOnce(events, id);
    AlwaysTimed(events);
    var s := Run(Start(), events);
    hide Run, Waits, Decisions;
    WaitsSome(s.waiting, id);
  }

  /** The timer decides a send still waiting, by cancelling it. */
  lemma TimeoutCancels(events: seq<Event>, h: Held)
    requires h in Run(Start(), events).waiting
    ensures var s := Step(Run(Start(), events), Timeout(h.id));
            s.decided == Run(Start(), events).decided + [Decision(h, Cancelled)] && Waits(s.waiting, h.id) == 0
  {
    var s := Run(Start(), events);
    DecidedOnce(events, h.id);
    AlwaysTimed(events);
    hide Run, Decisions;
    var k: nat :| k < |s.waiting| && s.waiting[k] == h;
    WaitsSome(s.waiting, h.id);
    if k != Find(s.waiting, h.id) {
      TwoWait(s.waiting, k, Find(s.waiting, h.id));
    }
    WaitsWithout(s.waiting, k, h.id);
  }

  lemma TwoWait(waiting: seq<Held>, j: nat, k: nat)
    requires j < |waiting| && k < |waiting| && j != k && waiting[j].id == waiting[k].id
    ensures Waits(waiting, waiting[j].id) >= 2
  {
    WaitsWithout(waiting, j, waiting[j].id);
    var rest := waiting[..j] + waiting[j + 1..];
    assert rest[if k < j then k else k - 1] == waiting[k];
    WaitsSome(rest, waiting[j].id);
  }

  // ----- what each send was asked about as

  function Asks(events: seq<Event>): nat {
    if events == [] then 0 else Asks(events[..|events| - 1]) + if events[|events| - 1].Ask? then 1 else 0
  }

  ghost predicate IsAsk(events: seq<Event>, n: int, h: Held) {
    && 0 <= n < |events| && Asks(events[..n]) == h.id
    && events[n].Ask? && events[n].raw == h.raw && events[n].names == h.names && events[n].keep == h.keep
  }

  /** The send was asked about by the event its id counts to. */
  ghost predicate AskedAs(events: seq<Event>, h: Held) {
    exists n :: IsAsk(events, n, h)
  }

  ghost predicate AllAsked(events: seq<Event>, s: State) {
    && s.next == Asks(events)
    && (forall h :: h in s.waiting ==> AskedAs(events, h))
    && (forall d :: d in s.decided ==> AskedAs(events, d.held))
  }

  lemma LongerAsked(events: seq<Event>, e: Event, h: Held)
    requires AskedAs(events, h)
    ensures AskedAs(events + [e], h)
  {
    var n :| IsAsk(events, n, h);
    assert (events + [e])[..n] == events[..n];
    assert IsAsk(events + [e], n, h);
  }

  lemma {:induction false} GoneMoves(s: State)
    ensures ResolveAll(s).next == s.next && ResolveAll(s).port == s.port && ResolveAll(s).waiting == []
    ensures forall d :: d in ResolveAll(s).decided ==> d in s.decided || d.held in s.waiting
    decreases |s.waiting|
  {
    if s.waiting != [] {
      GoneMoves(Resolve(s, 0, NoRelay));
    }
  }

  /** A step asks about one send at most, and decides only sends asked about. */
  lemma StepMoves(s: State, e: Event)
    ensures var t, known := Step(s, e), h => h in s.waiting || (e.Ask? && h == Held(s.next, e.raw, e.names, e.keep));
            && t.next == s.next + (if e.Ask? then 1 else 0)
            && (forall h :: h in t.waiting ==> known(h))
            && (forall d :: d in t.decided ==> d in s.decided || known(d.held))
  {
    hide ResolveAll;
    match e
    case Ask(raw, names, keep, postFails) =>
      GoneMoves(State(false, s.next + 1, s.waiting + [Held(s.next, raw, names, keep)], s.timers + {s.next}, s.decided));
    case RelayGone => GoneMoves(s.(port := false));
    case _ =>
  }

  lemma {:induction false} EverySendWasAsked(events: seq<Event>)
    ensures AllAsked(events, Run(Start(), events))
  {
    if events != [] {
      var n := |events| - 1;
      var front, e, s := events[..n], events[n], Run(Start(), events[..n]);
      EverySendWasAsked(front);
      StepMoves(s, e);
      assert front + [e] == events;
      hide Step, AskedAs, Run;
      forall h | AskedAs(front, h) ensures AskedAs(events, h) {
        LongerAsked(front, e, h);
      }
      if e.Ask? {
        assert AskedAs(events, Held(s.next, e.raw, e.names, e.keep)) by {
          NowAsked(front, e, Held(s.next, e.raw, e.names, e.keep));
        }
      }
    }
  }

  lemma NowAsked(events: seq<Event>, e: Event, h: Held)
    requires e.Ask? && h == Held(Asks(events), e.raw, e.names, e.keep)
    ensures AskedAs(events + [e], h)
  {
    assert (events + [e])[..|events|] == events;
    assert IsAsk(events + [e], |events|, h);
  }

  // ----- the event that decides a send, and what leaves then

  predicate IsDecided(s: State, id: nat) {
    Decisions(s.decided, id) > 0
  }

  /** The send is undecided before event m and decided after it. */
  ghost predicate DecidedBy(events: seq<Event>, m: nat, id: nat) {
    && m < |events|
    && !IsDecided(Run(Start(), events[..m]), id) && IsDecided(Run(Start(), events[..m + 1]), id)
  }

  /** The relay goes, or turns out to be gone when a send is put to the user. */
  predicate LosesRelay(s: State, e: Event, id: nat) {
    e.RelayGone? || (e.Ask? && if s.port then e.postFails else s.next == id)
  }

  /** The send's own answer or timer, or the relay lost. */
  ghost predicate Settles(s: State, e: Event, id: nat, choice: Choice) {
    match choice
    case NoRelay => LosesRelay(s, e, id)
    case Cancelled => e == Answer(id, Some(Cancelled)) || e == Timeout(id)
    case c => e == Answer(id, Some(c))
  }

  lemma {:induction false} HasDecision(decided: seq<Decision>, id: nat)
    ensures Decisions(decided, id) > 0 <==> exists d :: d in decided && d.held.id == id
  {
    if decided != [] {
      var n := |decided| - 1;
      HasDecision(decided[..n], id);
      assert decided == decided[..n] + [decided[n]];
    }
  }

  lemma {:induction false} GoneSettles(s: State, d: Decision)
    requires d in ResolveAll(s).decided && d !in s.decided
    ensures d.choice == NoRelay
    decreases |s.waiting|
  {
    if s.waiting != [] {
      if d in Resolve(s, 0, NoRelay).decided {
      } else {
        GoneSettles(Resolve(s, 0, NoRelay), d);
      }
    }
  }

  lemma StepSettles(s: State, e: Event, d: Decision)
    requires d in Step(s, e).decided && d !in s.decided
    ensures Settles(s, e, d.held.id, d.choice)
  {
    hide ResolveAll;
    match e
    case Ask(raw, names, keep, postFails) =>
      var held := Held(s.next, raw, names, keep);
      if s.port && postFails {
        GoneSettles(State(false, s.next + 1, s.waiting + [held], s.timers + {s.next}, s.decided), d);
      }
    case Answer(id, choice) =>
    case Timeout(id) =>
    case RelayGone => GoneSettles(s.(port := false), d);
    case RelayConnected =>
  }

  lemma {:induction false} GoneKeeps(s: State)
    ensures s.decided <= ResolveAll(s).decided
    decreases |s.waiting|
  {
    if s.waiting != [] {
      GoneKeeps(Resolve(s, 0, NoRelay));
    }
  }

  lemma StepKeeps(s: State, e: Event)
    ensures s.decided <= Step(s, e).decided
  {
    hide ResolveAll;
    match e
    case Ask(raw, names, keep, postFails) =>
      GoneKeeps(State(false, s.next + 1, s.waiting + [Held(s.next, raw, names, keep)], s.timers + {s.next}, s.decided));
    case RelayGone => GoneKeeps(s.(port := false));
    case _ =>
  }

  /** The decisions of an event are the ones made after it and not before. */
  lemma {:induction false} FirstDecided(events: seq<Event>, d: Decision) returns (m: nat)
    requires d in Run(Start(), events).decided
    ensures DecidedBy(events, m, d.held.id) && Settles(Run(Start(), events[..m]), events[m], d.held.id, d.choice)
  {
    var n := |events| - 1;
    var s := Run(Start(), events[..n]);
    hide Step, Settles;
    HasDecision(s.decided, d.held.id);
    HasDecision(Run(Start(), events).decided, d.held.id);
    if IsDecided(s, d.held.id) {
      StepKeeps(s, events[n]);
      DecidedOnce(events, d.held.id);
      OneDecision(s.decided, Run(Start(), events).decided, d);
      m := FirstDecided(events[..n], d);
      assert events[..n][..m] == events[..m] && events[..n][..m + 1] == events[..m + 1];
    } else {
      m := n;
      assert events[..m + 1] == events;
      StepSettles(s, events[n], d);
    }
  }

  lemma {:induction false} DecisionsConcat(a: seq<Decision>, b: seq<Decision>, id: nat)
    ensures Decisions(a + b, id) == Decisions(a, id) + Decisions(b, id)
  {
    if b == [] {
      assert a + b == a;
    } else {
      DecisionsConcat(a, b[..|b| - 1], id);
      Front(a, b);
    }
  }

  /** A send decided before and once in all is decided as before. */
  lemma OneDecision(before: seq<Decision>, after: seq<Decision>, d: Decision)
    requires before <= after && Decisions(before, d.held.id) > 0 && Decisions(after, d.held.id) <= 1 && d in after
    ensures d in before
  {
    var rest := after[|before|..];
    assert after == before + rest;
    DecisionsConcat(before, rest, d.held.id);
    HasDecision(rest, d.held.id);
    hide Decisions;
  }

  lemma {:induction false} AsksGrow(events: seq<Event>, n: nat, m: nat)
    requires n <= m <= |events|
    ensures Asks(events[..n]) <= Asks(events[..m])
  {
    if n < m {
      AsksGrow(events, n, m - 1);
      Prefixes(events, m - 1);
    }
  }

  /** A decided send was asked about no later than the event that decided it, and at that very event if its id was
      only then to be taken. */
  lemma AskedBefore(events: seq<Event>, n: nat, m: nat, h: Held)
    requires IsAsk(events, n, h) && DecidedBy(events, m, h.id)
    ensures n <= m && (Run(Start(), events[..m]).next == h.id ==> n == m)
  {
    DecidedOnce(events[..m + 1], h.id);
    EverySendWasAsked(events[..m + 1]);
    EverySendWasAsked(events[..m]);
    Prefixes(events, n);
    hide Run, Waits, Decisions, AskedAs;
    if m < n {
      AsksGrow(events, m + 1, n);
    } else if n < m {
      AsksGrow(events, n + 1, m);
    }
  }

  /** What leaves for a decided send, by the event m that decided it; it was asked about at n. Its own body leaves,
      under `keep` on the user's word to send it, under all its names on any other answer but a cancel and when the
      relay is lost; on a cancel or the timer nothing does. No other event decides it. */
  lemma SentOnlyAsChosen(redact: Redactor, events: seq<Event>, d: Decision) returns (n: nat, m: nat)
    requires d in Run(Start(), events).decided
    ensures n <= m && DecidedBy(events, m, d.held.id)
    ensures events[n].Ask? && Asks(events[..n]) == d.held.id
    ensures var e, id, outcome := events[m], d.held.id, Effect(redact, d);
            || ((e == Answer(id, Some(Cancelled)) || e == Timeout(id)) && outcome == Refused)
            || (e == Answer(id, Some(Sent)) && outcome == Goes(redact(events[n].raw, events[n].keep)))
            || ((e == Answer(id, Some(Redacted)) || e == Answer(id, Some(Removed)) || e.RelayGone?
                 || (e.Ask? && if Run(Start(), events[..m]).port then e.postFails else n == m))
                && outcome == Goes(redact(events[n].raw, events[n].names)))
  {
    EverySendWasAsked(events);
    m := FirstDecided(events, d);
    hide Run, Asks, DecidedBy;
    assert AskedAs(events, d.held);
    n :| IsAsk(events, n, d.held);
    AskedBefore(events, n, m, d.held);
  }

  /** A listed answer decides the send that waits for it, and as it says. */
  lemma AnswerDecides(events: seq<Event>, h: Held, choice: Choice)
    requires h in Run(Start(), events).waiting && choice != NoRelay
    ensures var s := Step(Run(Start(), events), Answer(h.id, Some(choice)));
            s.decided == Run(Start(), events).decided + [Decision(h, choice)] && Waits(s.waiting, h.id) == 0
  {
    var s := Run(Start(), events);
    DecidedOnce(events, h.id);
    hide Run, Decisions;
    var k: nat :| k < |s.waiting| && s.waiting[k] == h;
    WaitsSome(s.waiting, h.id);
    if k != Find(s.waiting, h.id) {
      TwoWait(s.waiting, k, Find(s.waiting, h.id));
    }
    WaitsWithout(s.waiting, k, h.id);
  }

  function NoRelayFor(waiting: seq<Held>): seq<Decision> {
    if waiting == [] then [] else [Decision(waiting[0], NoRelay)] + NoRelayFor(waiting[1..])
  }

  lemma ResolveFirst(s: State)
    requires s.waiting != []
    ensures var t := Resolve(s, 0, NoRelay);
            t.waiting == s.waiting[1..] && t.decided == s.decided + [Decision(s.waiting[0], NoRelay)]
  {
  }

  /** When the relay goes, every waiting send is decided no_relay, oldest first. */
  lemma {:induction false} GoneDecidesAll(s: State)
    ensures ResolveAll(s).decided == s.decided + NoRelayFor(s.waiting)
    decreases |s.waiting|
  {
    hide Resolve;
    if s.waiting != [] {
      ResolveFirst(s);
      GoneDecidesAll(Resolve(s, 0, NoRelay));
      Assoc(s.decided, [Decision(s.waiting[0], NoRelay)], NoRelayFor(s.waiting[1..]));
    }
  }

  // ----- the content script's own variables

  class ContentScript {
    var port: bool
    var next: nat
    var waiting: seq<Held>
    var timers: set<nat>
    // How each send's promise was settled, oldest first.
    var decided: seq<Decision>

    constructor ()
      ensures Now() == Start()
    {
      port, next, waiting, timers, decided := false, 0, [], {}, [];
    }

    function Now(): State
      reads this
    {
      State(port, next, waiting, timers, decided)
    }

    /** clearTimeout, delete, resolve. */
    method Settle(k: nat, choice: Choice)
      requires k < |waiting|
      modifies this
      ensures Now() == Resolve(old(Now()), k, choice)
    {
      var w := waiting[k];
      timers := timers - {w.id};
      waiting := waiting[..k] + waiting[k + 1..];
      decided := decided + [Decision(w, choice)];
    }

    method OnRelayGone()
      modifies this
      ensures Now() == Step(old(Now()), RelayGone)
      ensures !port && waiting == [] && next == old(next) && decided == old(decided) + NoRelayFor(old(waiting))
    {
      GoneDecidesAll(Now().(port := false));
      GoneMoves(Now().(port := false));
      port := false;
      while waiting != []
        invariant ResolveAll(Now()) == ResolveAll(old(Now()).(port := false))
        decreases |waiting|
      {
        Settle(0, NoRelay);
      }
      assert Now() == ResolveAll(old(Now()).(port := false));
    }

    method AskUser(raw: string, names: set<string>, keep: set<string>, postFails: bool)
      modifies this
      ensures Now() == Step(old(Now()), Ask(raw, names, keep, postFails))
      // With a live relay the send waits and its timer runs; otherwise it is decided at once.
      ensures var h := Held(old(next), raw, names, keep);
              && next == old(next) + 1
              && (old(port) && !postFails ==>
                    waiting == old(waiting) + [h] && h.id in timers && decided == old(decided) && port)
              && (!old(port) ==> waiting == old(waiting) && decided == old(decided) + [Decision(h, NoRelay)])
              && (old(port) && postFails ==>
                    !port && waiting == [] && decided == old(decided) + NoRelayFor(old(waiting) + [h]))
    {
      var held := Held(next, raw, names, keep);
      next := next + 1;
      if !port {
        decided := decided + [Decision(held, NoRelay)];
        return;
      }
      timers := timers + {held.id};
      waiting := waiting + [held];
      if postFails {
        OnRelayGone();
      }
    }

    method OnAnswered(id: nat, choice: Option<Choice>)
      modifies this
      ensures Now() == Step(old(Now()), Answer(id, choice))
    {
      var k := Find(waiting, id);
      if k == |waiting| || !IsChoice(choice) {
        return;
      }
      Settle(k, choice.value);
    }

    method OnTimer(id: nat)
      modifies this
      ensures Now() == Step(old(Now()), Timeout(id))
    {
      if id !in timers {
        return;
      }
      var k := Find(waiting, id);
      if k == |waiting| {
        timers := timers - {id};
        return;
      }
      Settle(k, Cancelled);
    }

    method OnConnected()
      modifies this
      ensures Now() == Step(old(Now()), RelayConnected)
    {
      port := true;
    }
  }
}

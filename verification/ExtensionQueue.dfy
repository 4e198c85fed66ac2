/** The capture queue of browser_extension/background.js: overlapping flushes, and consent that may be withdrawn at any
    await. */
module ExtensionQueue {
  import opened Wrappers

  const MaxQueued: nat := 50

  // Rows are numbered as they are captured. A flush that is waiting for the server holds its rows as a batch;
  // `echoes` are the storage change events still on their way back from setConsent.
  datatype State = State(consentOn: bool, queue: seq<nat>, batches: seq<seq<nat>>, delivered: seq<nat>,
                         dropped: seq<nat>,
                         captured: nat, stored: bool, echoes: seq<bool>)

  // Each event is what runs between two awaits. Batches are named by their place among those in flight.
  datatype Event = Capture | Flush | Posted(k: nat) | Failed(k: nat) | SetConsent(on: bool) | Echo

  function Start(): State {
    State(false, [], [], [], [], 0, false, [])
  }

  function Cap(s: State, rows: seq<nat>): State {
    var kept := LastN(rows, MaxQueued);
    s.(queue := kept, dropped := s.dropped + rows[..|rows| - |kept|])
  }

  function DropWaiting(s: State): State {
    s.(queue := [], dropped := s.dropped + s.queue)
  }

  function Without<T>(ss: seq<T>, k: nat): seq<T>
    requires k < |ss|
  {
    ss[..k] + ss[k + 1..]
  }

  function Step(s: State, e: Event): State {
    match e
    case Capture =>
      if !s.consentOn then s else Cap(s.(captured := s.captured + 1), s.queue + [s.captured])
    case Flush =>
      if !s.consentOn then DropWaiting(s)
      else if s.queue == [] then s
      else s.(queue := [], batches := s.batches + [s.queue])
    case Posted(k) =>
      if k >= |s.batches| then s
      else s.(batches := Without(s.batches, k), delivered := s.delivered + s.batches[k])
    case Failed(k) =>
      if k >= |s.batches| then s
      else
        var batch, rest := s.batches[k], s.(batches := Without(s.batches, k));
        if !s.consentOn then DropWaiting(rest.(dropped := rest.dropped + batch)) else Cap(rest, batch + s.queue)
    case SetConsent(on) =>
      var t := s.(consentOn := on, stored := on, echoes := if on || s.stored then s.echoes + [on] else s.echoes);
      if on then t else DropWaiting(t)
    case Echo =>
      if s.echoes == [] then s else s.(consentOn := s.echoes[0], echoes := s.echoes[1..])
  }

  /** With consent a captured row goes to the end, and at the cap the oldest falls off. */
  lemma CaptureDropsOldest(s: State)
    requires |s.queue| <= MaxQueued
    ensures var t := Step(s, Capture);
            && (!s.consentOn ==> t == s)
            && (s.consentOn && |s.queue| < 50 ==>
                  t.queue == s.queue + [s.captured] && t.dropped == s.dropped)
            && (s.consentOn && |s.queue| == 50 ==>
                  t.queue == s.queue[1..] + [s.captured] && t.dropped == s.dropped + [s.queue[0]])
            && t.batches == s.batches && t.delivered == s.delivered
  {
    var rows := s.queue + [s.captured];
    if |s.queue| == MaxQueued {
      assert rows[1..] == s.queue[1..] + [s.captured] && rows[..1] == [s.queue[0]];
    } else {
      assert rows[..0] == [] && s.dropped + [] == s.dropped;
    }
  }

  /** A choice takes effect at once, a withdrawal drops what waits, and the change comes back as an event unless there
      was nothing to take back. */
  lemma ChoiceTakesEffect(s: State, on: bool)
    ensures var t := Step(s, SetConsent(on));
            && t.consentOn == on && t.stored == on && t.batches == s.batches && t.delivered == s.delivered
            && t.echoes == s.echoes + (if !on && !s.stored then [] else [on])
            && t.queue == (if on then s.queue else [])
            && t.dropped == s.dropped + if on then [] else s.queue
  {
  }

  /** With consent a flush takes all that waits as one batch, in order; without, it drops it. */
  lemma FlushTakesAll(s: State)
    ensures var t := Step(s, Flush);
            && t.queue == []
            && t.batches == s.batches + (if s.consentOn && s.queue != [] then [s.queue] else [])
            && t.dropped == s.dropped + if s.consentOn then [] else s.queue
  {
  }

  function Run(s: State, events: seq<Event>): State {
    if events == [] then s else Step(Run(s, events[..|events| - 1]), events[|events| - 1])
  }

  // ----- every row is in exactly one place

  function InBatches(batches: seq<seq<nat>>, row: nat): nat {
    if batches == [] then 0 else InBatches(batches[..|batches| - 1], row) + multiset(batches[|batches| - 1])[row]
  }

  function Places(s: State, row: nat): nat {
    multiset(s.queue)[row] + InBatches(s.batches, row) + multiset(s.delivered)[row] + multiset(s.dropped)[row]
  }

  ghost predicate Conserved(s: State) {
    forall row: nat :: Places(s, row) == if row < s.captured then 1 else 0
  }

  ghost predicate Capped(s: State) {
    |s.queue| <= MaxQueued && forall k :: 0 <= k < |s.batches| ==> 0 < |s.batches[k]| <= MaxQueued
  }

  lemma {:induction false} InWithout(batches: seq<seq<nat>>, k: nat, row: nat)
    requires k < |batches|
    ensures InBatches(batches, row) == InBatches(Without(batches, k), row) + multiset(batches[k])[row]
  {
    var n := |batches| - 1;
    if k < n {
      InWithout(batches[..n], k, row);
      assert Without(batches, k)[..n - 1] == Without(batches[..n], k);
      assert Without(batches, k)[n - 1] == batches[n];
    } else {
      assert Without(batches, k) == batches[..n];
    }
  }

  lemma CapPlaces(s: State, rows: seq<nat>, row: nat)
    ensures Places(Cap(s, rows), row) == Places(s, row) - multiset(s.queue)[row] + multiset(rows)[row]
    ensures |Cap(s, rows).queue| <= MaxQueued
  {
    var kept := LastN(rows, MaxQueued);
    assert rows == rows[..|rows| - |kept|] + kept;
    assert multiset(rows) == multiset(rows[..|rows| - |kept|]) + multiset(kept);
  }

  lemma PostedPlaces(s: State, k: nat, row: nat)
    requires k < |s.batches|
    ensures Places(Step(s, Posted(k)), row) == Places(s, row)
  {
    InWithout(s.batches, k, row);
    hide Without, InBatches;
  }

  lemma FailedPlaces(s: State, k: nat, row: nat)
    requires k < |s.batches|
    ensures Places(Step(s, Failed(k)), row) == Places(s, row)
  {
    InWithout(s.batches, k, row);
    hide Without, InBatches, Cap;
    var rest := s.(batches := Without(s.batches, k));
    if s.consentOn {
      CapPlaces(rest, s.batches[k] + s.queue, row);
    }
  }

  lemma StepPlaces(s: State, e: Event, row: nat)
    ensures Places(Step(s, e), row)
            == Places(s, row) + if e.Capture? && s.consentOn && row == s.captured then 1 else 0
  {
    match e
    case Posted(k) =>
      hide Places;
      if k < |s.batches| {
        PostedPlaces(s, k, row);
      }
    case Failed(k) =>
      hide Places;
      if k < |s.batches| {
        FailedPlaces(s, k, row);
      }
    case Capture =>
      hide Cap, InBatches;
      if s.consentOn {
        CapPlaces(s.(captured := s.captured + 1), s.queue + [s.captured], row);
      }
    case Flush =>
      Init(s.batches, s.queue);
    case _ =>
      hide InBatches;
  }

  lemma StepCapped(s: State, e: Event)
    requires Capped(s)
    ensures Capped(Step(s, e))
  {
  }

  /** Whatever overlaps, each captured row is in exactly one of: the queue, one batch in flight, delivered, dropped. */
  lemma {:induction false} EveryRowIsSomewhere(events: seq<Event>)
    ensures Conserved(Run(Start(), events)) && Capped(Run(Start(), events))
  {
    if events != [] {
      var before, e := Run(Start(), events[..|events| - 1]), events[|events| - 1];
      EveryRowIsSomewhere(events[..|events| - 1]);
      hide Run, Places, Step;
      StepCapped(before, e);
      StepCaptured(before, e);
      forall row: nat ensures Places(Step(before, e), row) == if row < Step(before, e).captured then 1 else 0 {
        StepPlaces(before, e, row);
      }
    }
  }

  lemma StepCaptured(s: State, e: Event)
    ensures Step(s, e).captured == s.captured + if e.Capture? && s.consentOn then 1 else 0
  {
  }

  // ----- what a withdrawal guarantees

  lemma {:induction false} RunAppend(s: State, a: seq<Event>, b: seq<Event>)
    ensures Run(s, a + b) == Run(Run(s, a), b)
  {
    if b == [] {
      assert a + b == a;
    } else {
      RunAppend(s, a, b[..|b| - 1]);
      Front(a, b);
    }
  }

  lemma {:induction false} DroppedStays(s: State, events: seq<Event>, row: nat)
    requires row in s.dropped
    ensures row in Run(s, events).dropped
  {
    if events != [] {
      DroppedStays(s, events[..|events| - 1], row);
    }
  }

  /** A row still in the queue when consent is withdrawn is never sent, whatever happens later. */
  lemma WithdrawnIsNeverSent(before: seq<Event>, later: seq<Event>, row: nat)
    requires row in Run(Start(), before).queue
    ensures row !in Run(Start(), before + [SetConsent(false)] + later).delivered
  {
    var events := before + [SetConsent(false)];
    Init(before, SetConsent(false));
    DroppedStays(Run(Start(), events), later, row);
    RunAppend(Start(), events, later);
    EveryRowIsSomewhere(events + later);
    var s := Run(Start(), events + later);
    hide Run;
    assert row in s.dropped && Places(s, row) <= 1;
  }

  lemma {:induction false} DeliveredStays(s: State, events: seq<Event>, row: nat)
    requires row in s.delivered
    ensures row in Run(s, events).delivered
  {
    if events != [] {
      DeliveredStays(s, events[..|events| - 1], row);
      StepDelivers(Run(s, events[..|events| - 1]), events[|events| - 1]);
      hide Step;
    }
  }

  lemma StepDelivers(s: State, e: Event)
    ensures s.delivered <= Step(s, e).delivered
    ensures Step(s, e).delivered == s.delivered + if e.Posted? && e.k < |s.batches| then s.batches[e.k] else []
  {
    hide Without, LastN;
  }

  lemma {:induction false} BatchOf(batches: seq<seq<nat>>, row: nat) returns (k: nat)
    requires InBatches(batches, row) > 0
    ensures k < |batches| && row in batches[k]
  {
    k := |batches| - 1;
    if row !in batches[k] {
      k := BatchOf(batches[..k], row);
    }
  }

  ghost predicate NeverSentAfter(before: seq<Event>, row: nat) {
    forall later :: row !in Run(Start(), before + [SetConsent(false)] + later).delivered
  }

  /** Posting the batch it is in delivers a row, withdrawn or not. */
  lemma InFlightCanBeSent(before: seq<Event>, k: nat, row: nat)
    requires k < |Run(Start(), before).batches| && row in Run(Start(), before).batches[k]
    ensures row in Run(Start(), before + [SetConsent(false)] + [Posted(k)]).delivered
  {
    Init(before, SetConsent(false));
    Init(before + [SetConsent(false)], Posted(k));
  }

  /** Of the rows captured before a withdrawal exactly those waiting in the queue, or dropped already, are never sent on
      any continuation: those in flight can be, and those delivered were. */
  lemma NeverSentIff(before: seq<Event>, row: nat)
    requires row < Run(Start(), before).captured
    ensures NeverSentAfter(before, row) <==> row in Run(Start(), before).queue || row in Run(Start(), before).dropped
  {
    var s, withdrawn := Run(Start(), before), before + [SetConsent(false)];
    EveryRowIsSomewhere(before);
    Next(before, SetConsent(false), Step(s, SetConsent(false)));
    hide Run;
    assert Places(s, row) == 1;
    if row in s.queue || row in s.dropped {
      forall later ensures row !in Run(Start(), withdrawn + later).delivered {
        DroppedStays(Run(Start(), withdrawn), later, row);
        RunAppend(Start(), withdrawn, later);
        EveryRowIsSomewhere(withdrawn + later);
        assert Places(Run(Start(), withdrawn + later), row) <= 1;
      }
    } else if row in s.delivered {
      assert withdrawn + [] == withdrawn;
      assert row in Run(Start(), withdrawn + []).delivered;
    } else {
      var k := BatchOf(s.batches, row);
      InFlightCanBeSent(before, k, row);
    }
  }

  /** A failed batch goes back in front of the queue as far as the cap allows and only while consent is on; a row that
      does not go back is dropped. */
  lemma PutBackIff(events: seq<Event>, k: nat, p: nat)
    requires k < |Run(Start(), events).batches| && p < |Run(Start(), events).batches[k]|
    ensures var s := Run(Start(), events);
            var row, t := s.batches[k][p], Step(s, Failed(k));
            && (row in t.queue <==> s.consentOn && |s.batches[k]| - p + |s.queue| <= MaxQueued)
            && (row in t.dropped <==> row !in t.queue)
  {
    EveryRowIsSomewhere(events);
    hide Run;
    OnceInBatch(Run(Start(), events), k, p);
    hide Conserved, Capped, LastN;
    KeptOrCut(Run(Start(), events).batches[k], Run(Start(), events).queue, p);
  }

  lemma KeptOrCut(batch: seq<nat>, queue: seq<nat>, p: nat)
    requires p < |batch| && batch[p] !in queue
    requires forall q :: 0 <= q < |batch| && q != p ==> batch[q] != batch[p]
    ensures var rows := batch + queue;
            var kept := LastN(rows, MaxQueued);
            && (batch[p] in kept <==> |batch| - p + |queue| <= MaxQueued)
            && (batch[p] in rows[..|rows| - |kept|] <==> batch[p] !in kept)
  {
    var rows := batch + queue;
    var cut := |rows| - |LastN(rows, MaxQueued)|;
    assert rows[p] == batch[p];
    if cut <= p {
      assert LastN(rows, MaxQueued)[p - cut] == batch[p];
    } else {
      assert rows[..cut][p] == batch[p];
    }
  }

  lemma OnceInBatch(s: State, k: nat, p: nat)
    requires Conserved(s) && k < |s.batches| && p < |s.batches[k]|
    ensures var row := s.batches[k][p];
            && row !in s.queue && row !in s.dropped && row !in s.delivered
            && forall q :: 0 <= q < |s.batches[k]| && q != p ==> s.batches[k][q] != row
  {
    var batch, row := s.batches[k], s.batches[k][p];
    InWithout(s.batches, k, row);
    assert Places(s, row) <= 1;
    forall q | 0 <= q < |batch| && q != p ensures batch[q] != row {
      if batch[q] == row {
        TwicePlaced(batch, if p < q then p else q, if p < q then q else p);
      }
    }
  }

  lemma TwicePlaced(batch: seq<nat>, p: nat, q: nat)
    requires p < q < |batch| && batch[p] == batch[q]
    ensures multiset(batch)[batch[p]] >= 2
  {
    assert batch == batch[..q] + batch[q..];
    assert batch[..q][p] == batch[p] && batch[q..][0] == batch[p];
    assert multiset(batch) == multiset(batch[..q]) + multiset(batch[q..]);
  }

  /** A batch that fails while consent is off is dropped with the queue, never put back. */
  lemma FailedWhileOff(s: State, k: nat)
    requires k < |s.batches| && !s.consentOn
    ensures Step(s, Failed(k)).queue == []
    ensures forall row :: row in s.batches[k] ==> row in Step(s, Failed(k)).dropped
  {
  }

  lemma Next(events: seq<Event>, e: Event, s: State)
    requires Step(Run(Start(), events), e) == s
    ensures Run(Start(), events + [e]) == s
  {
    Init(events, e);
  }

  /** Only what was waiting: rows already with a flush can be put back and sent once consent is given again. */
  lemma InFlightCanBeRetried() returns (before: seq<Event>, later: seq<Event>)
    ensures Run(Start(), before).batches == [[0]]
    ensures Run(Start(), before + [SetConsent(false)] + later).delivered == [0]
  {
    hide Run;
    before := InFlight();
    var s := State(false, [], [[0]], [], [], 1, false, [true, false]);
    var withdrawn := before + [SetConsent(false)];
    Next(before, SetConsent(false), s);
    var e1 := withdrawn + [SetConsent(true)];
    Next(withdrawn, SetConsent(true), s.(consentOn := true, stored := true, echoes := [true, false, true]));
    var e2 := e1 + [Failed(0)];
    var waiting := State(true, [0], [], [], [], 1, true, [true, false, true]);
    assert LastN([0] + [], MaxQueued) == [0];
    Next(e1, Failed(0), waiting);
    Next(e2, Flush, waiting.(queue := [], batches := [[0]]));
    Next(e2 + [Flush], Posted(0), waiting.(queue := [], batches := [], delivered := [0]));
    later := [SetConsent(true), Failed(0), Flush, Posted(0)];
    assert withdrawn + later == e2 + [Flush] + [Posted(0)];
  }

  lemma InFlight() returns (events: seq<Event>)
    ensures Run(Start(), events) == State(true, [], [[0]], [], [], 1, true, [true])
  {
    var e1 := [] + [SetConsent(true)];
    Next([], SetConsent(true), Start().(consentOn := true, stored := true, echoes := [true]));
    hide Run;
    var e2 := e1 + [Capture];
    Next(e1, Capture, State(true, [0], [], [], [], 1, true, [true]));
    events := e2 + [Flush];
    Next(e2, Flush, State(true, [], [[0]], [], [], 1, true, [true]));
  }

  // ----- consent off means an empty queue, unless an old storage event arrives late

  predicate OffMeansEmpty(s: State) {
    !s.consentOn ==> s.queue == []
  }

  /** The one event that can break it is a late echo of a withdrawal, with rows waiting that were captured since. */
  lemma OffMeansEmptyStep(s: State, e: Event)
    requires OffMeansEmpty(s)
    ensures OffMeansEmpty(Step(s, e)) <==> !(e.Echo? && s.echoes != [] && !s.echoes[0] && s.queue != [])
  {
  }

  /** It does happen: withdraw, grant again and capture before the withdrawal's own event comes back. */
  lemma LateEcho() returns (events: seq<Event>)
    ensures !Run(Start(), events).consentOn && Run(Start(), events).queue == [0]
  {
    var e1 := [] + [SetConsent(true)];
    var s := State(true, [], [], [], [], 0, true, [true]);
    Next([], SetConsent(true), s);
    hide Run;
    Next(e1, SetConsent(false), s.(consentOn := false, stored := false, echoes := [true, false]));
    var e3 := e1 + [SetConsent(false)] + [SetConsent(true)];
    Next(e1 + [SetConsent(false)], SetConsent(true), s.(echoes := [true, false, true]));
    Next(e3, Capture, s.(queue := [0], captured := 1, echoes := [true, false, true]));
    var e5 := e3 + [Capture] + [Echo];
    Next(e3 + [Capture], Echo, s.(queue := [0], captured := 1, echoes := [false, true]));
    events := e5 + [Echo];
    Next(e5, Echo, s.(consentOn := false, queue := [0], captured := 1, echoes := [true]));
  }

  /** Every choice is made after the events of the one before have come back. */
  predicate Unhurried(events: seq<Event>) {
    events == []
    || (&& Unhurried(events[..|events| - 1])
        && (events[|events| - 1].SetConsent? ==> Run(Start(), events[..|events| - 1]).echoes == []))
  }

  /** With at most the event of the last choice on its way, an echo changes nothing. */
  lemma EchoStep(s: State, e: Event)
    requires s.echoes == [] || s.echoes == [s.consentOn]
    requires e.SetConsent? ==> s.echoes == []
    ensures Step(s, e).echoes == [] || Step(s, e).echoes == [Step(s, e).consentOn]
    ensures e.Echo? && s.echoes != [] && !s.echoes[0] ==> !s.consentOn
  {
    hide LastN, Without;
  }

  lemma {:induction false} OffMeansEmptyAlways(events: seq<Event>)
    requires Unhurried(events)
    ensures OffMeansEmpty(Run(Start(), events))
    ensures Run(Start(), events).echoes == [] || Run(Start(), events).echoes == [Run(Start(), events).consentOn]
  {
    if events != [] {
      var before, e := Run(Start(), events[..|events| - 1]), events[|events| - 1];
      OffMeansEmptyAlways(events[..|events| - 1]);
      OffMeansEmptyStep(before, e);
      EchoStep(before, e);
      hide Step, OffMeansEmpty;
    }
  }

  function LastChoice(events: seq<Event>): bool {
    if events == [] then false
    else if events[|events| - 1].SetConsent? then events[|events| - 1].on
    else LastChoice(events[..|events| - 1])
  }

  function Settles(s: State): bool {
    if s.echoes == [] then s.consentOn else s.echoes[|s.echoes| - 1]
  }

  lemma SettlesStep(s: State, e: Event)
    requires Settles(s) == s.stored
    ensures Settles(Step(s, e)) == Step(s, e).stored == if e.SetConsent? then e.on else Settles(s)
  {
    hide Without, LastN;
  }

  /** Hurried or not, once the events have come back consent is what the user chose last. */
  lemma {:induction false} ConsentSettles(events: seq<Event>)
    ensures Settles(Run(Start(), events)) == LastChoice(events) == Run(Start(), events).stored
  {
    if events != [] {
      ConsentSettles(events[..|events| - 1]);
      SettlesStep(Run(Start(), events[..|events| - 1]), events[|events| - 1]);
      hide Step, Settles;
    }
  }

  // ----- the background script's own variables

  class Background {
    var consentOn: bool
    var queue: seq<nat>
    var captured: nat
    // The `batch` of each flush that is waiting for the server.
    var batches: seq<seq<nat>>
    // What chrome.storage.local holds, and the change events it still owes.
    var stored: bool
    var echoes: seq<bool>
    ghost var delivered: seq<nat>
    ghost var dropped: seq<nat>

    constructor ()
      ensures Now() == Start()
    {
      consentOn, queue, captured, batches, stored, echoes := false, [], 0, [], false, [];
      delivered, dropped := [], [];
    }

    ghost function Now(): State
      reads this
    {
      State(consentOn, queue, batches, delivered, dropped, captured, stored, echoes)
    }

    method DropEverythingWaiting()
      modifies this
      ensures Now() == DropWaiting(old(Now()))
    {
      dropped := dropped + queue;
      queue := [];
    }

    /** slice(-MAX_QUEUED) */
    method Keep(rows: seq<nat>)
      modifies this
      ensures Now() == Cap(old(Now()), rows)
    {
      queue := LastN(rows, MaxQueued);
      dropped := dropped + rows[..|rows| - |queue|];
    }

    method OnCapture() returns (queued: bool)
      modifies this
      ensures Now() == Step(old(Now()), Capture) && queued == old(consentOn)
    {
      if !consentOn {
        return false;
      }
      var row := captured;
      captured := captured + 1;
      Keep(queue + [row]);
      queued := true;
    }

    method SetConsentTo(granted: bool)
      modifies this
      ensures Now() == Step(old(Now()), SetConsent(granted))
    {
      consentOn := granted;
      if !consentOn {
        DropEverythingWaiting();
      }
      if granted || stored {
        echoes := echoes + [granted];
      }
      stored := granted;
    }

    method OnChanged()
      modifies this
      ensures Now() == Step(old(Now()), Echo)
    {
      if echoes != [] {
        consentOn := echoes[0];
        echoes := echoes[1..];
      }
    }

    method BeginFlush()
      modifies this
      ensures Now() == Step(old(Now()), Flush)
    {
      if !consentOn {
        DropEverythingWaiting();
        return;
      }
      var batch := queue;
      queue := [];
      if batch == [] {
        return;
      }
      batches := batches + [batch];
    }

    method FlushPosted(k: nat)
      requires k < |batches|
      modifies this
      ensures Now() == Step(old(Now()), Posted(k))
    {
      delivered := delivered + batches[k];
      batches := Without(batches, k);
    }

    method FlushFailed(k: nat)
      requires k < |batches|
      modifies this
      ensures Now() == Step(old(Now()), Failed(k))
    {
      var batch := batches[k];
      batches := Without(batches, k);
      if !consentOn {
        dropped := dropped + batch;
        DropEverythingWaiting();
        return;
      }
      Keep(batch + queue);
    }
  }
}

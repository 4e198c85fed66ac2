/** What a run of the worker comes to, said of its events: when run() returns, and what became of each job
    (workers.py). */
module WorkerRuns {
  import opened Worker

  // ----- when run() returns

  /** A pop that found nothing while nothing was in flight, in a run until idle. */
  predicate IdlePop(c: Config, s: State, e: Event) {
    c.untilIdle && s.pc == Popping && e == PopNone && s.inFlight == {}
  }

  lemma ReturnsStep(c: Config, s: State, e: Event)
    requires s.pc != Returned && (s.stopSeen || s.pc == FinalDrain ==> s.stopping)
    ensures var t := Step(c, s, e);
            && (t.pc == Returned ==> s.stopping || IdlePop(c, s, e))
            && (IdlePop(c, s, e) ==> t.pc == Returned)
            && (s.stopping ==> t.stopping) && (t.stopSeen || t.pc == FinalDrain ==> t.stopping)
  {
    hide WorkOn;
    match e
    case PopJob => hide Idle, Waited, Drained;
    case WaitDone => hide Popped, Idle, Drained;
    case PopNone => hide Popped, Waited, Drained;
    case LoopTop => hide Popped, Idle, Waited, Drained;
    case _ => hide Popped, Idle, Waited;
  }

  lemma ReturnedStays(c: Config, s: State, e: Event)
    requires s.pc == Returned
    ensures Step(c, s, e).pc == Returned && (s.stopping ==> Step(c, s, e).stopping)
  {
    hide WorkOn;
  }

  lemma {:induction false} SeenMeansStopping(c: Config, events: seq<Event>)
    ensures var s := Run(c, Init(c), events);
            s.pc != Returned ==> (s.stopSeen || s.pc == FinalDrain ==> s.stopping)
  {
    hide Step;
    if events != [] {
      var before := Run(c, Init(c), events[..|events| - 1]);
      SeenMeansStopping(c, events[..|events| - 1]);
      if before.pc == Returned {
        ReturnedStays(c, before, events[|events| - 1]);
      } else {
        ReturnsStep(c, before, events[|events| - 1]);
      }
    }
  }

  /** run() returns at one event only, and either it has been told to stop or it runs until idle and the queue gave
      nothing with nothing in flight. So a run not until idle goes on until stop() is called. */
  lemma {:induction false} WhyReturned(c: Config, events: seq<Event>) returns (n: nat)
    requires Run(c, Init(c), events).pc == Returned
    ensures n < |events| && Run(c, Init(c), events[..n]).pc != Returned
    ensures Run(c, Init(c), events[..n + 1]).pc == Returned
    ensures Run(c, Init(c), events[..n]).stopping || IdlePop(c, Run(c, Init(c), events[..n]), events[n])
    ensures !Run(c, Init(c), events).stopping ==> c.untilIdle && IdlePop(c, Run(c, Init(c), events[..n]), events[n])
  {
    hide Step;
    var last := |events| - 1;
    var before := Run(c, Init(c), events[..last]);
    if before.pc == Returned {
      n := WhyReturned(c, events[..last]);
      assert events[..last][..n] == events[..n] && events[..last][..n + 1] == events[..n + 1];
      ReturnedStays(c, before, events[last]);
    } else {
      n := last;
      assert events[..n + 1] == events;
      SeenMeansStopping(c, events[..last]);
      ReturnsStep(c, before, events[last]);
    }
  }

  /** Where an empty pop leaves the loop. In every case the permit is free again and no job is touched. */
  lemma EmptyPop(c: Config, s: State)
    requires s.pc == Popping && s.held
    ensures var t := Step(c, s, PopNone);
            && (t.pc == Returned <==> c.untilIdle && s.inFlight == {})
            && (t.pc == IdleDrain <==> c.untilIdle && s.inFlight != {})
            && (t.pc == Top <==> !c.untilIdle)
            && (t.pc == IdleDrain ==> t.awaited == s.inFlight)
            && !t.held && t.pool == s.pool.(permits := s.pool.permits + 1) && t.inFlight == s.inFlight
  {
  }

  lemma RunNext(c: Config, s: State, events: seq<Event>, e: Event)
    ensures Run(c, s, events + [e]) == Step(c, Run(c, s, events), e)
  {
    assert (events + [e])[..|events|] == events;
    hide Step;
  }

  lemma RunNone(c: Config, s: State)
    ensures Run(c, s, []) == s
  {
  }

  lemma RunFour(c: Config, s: State, a: Event, b: Event, d: Event, e: Event)
    ensures Run(c, s, [a, b, d]) == Step(c, Step(c, Step(c, s, a), b), d)
    ensures Run(c, s, [a, b, d, e]) == Step(c, Step(c, Step(c, Step(c, s, a), b), d), e)
  {
    hide Step;
    hide Run;
    RunNext(c, s, [], a);
    RunNext(c, s, [a], b);
    RunNext(c, s, [a, b], d);
    RunNext(c, s, [a, b, d], e);
    assert [] + [a] == [a] && [a] + [b] == [a, b] && [a, b] + [d] == [a, b, d] && [a, b, d] + [e] == [a, b, d, e];
    RunNone(c, s);
  }

  /** Not until idle, a whole round that finds the queue empty changes nothing: the worker waits for the next job. */
  lemma EmptyRoundChangesNothing(c: Config, s: State)
    requires !c.untilIdle && s.pc == Top && !s.held && !s.stopping && !s.stopSeen && s.pool.permits > 0
    ensures Run(c, s, [LoopTop, Grant, WaitDone, PopNone]) == s
  {
    RunFour(c, s, LoopTop, Grant, WaitDone, PopNone);
    hide Run;
  }

  /** Until idle, the same round with jobs in flight waits for those, and then looks again. */
  lemma IdleRoundLooksAgain(c: Config, s: State)
    requires c.untilIdle && s.pc == Top && !s.held && !s.stopping && !s.stopSeen && s.pool.permits > 0
    requires s.inFlight != {}
    ensures var t := Run(c, s, [LoopTop, Grant, WaitDone, PopNone]);
            && t == s.(pc := IdleDrain, awaited := s.inFlight)
            && ((forall j :: j in s.inFlight ==> Finished(s.pool, j)) <==> Step(c, t, DrainDone).pc == Top)
            && (Step(c, t, DrainDone).pc != Top ==> Step(c, t, DrainDone) == t)
  {
    RunFour(c, s, LoopTop, Grant, WaitDone, PopNone);
    hide Run;
  }

  /** A stop gets through to a loop that waits for a permit, held or not: it leaves with the permit given back. */
  lemma StopGetsThrough(c: Config, s: State)
    requires s.pc == Acquiring
    ensures var t := Run(c, s, [Stop, StopTaskDone, WaitDone]);
            && t.pc == (if s.inFlight == {} then Returned else FinalDrain) && !t.held
            && t.pool == s.pool.(permits := s.pool.permits + if s.held then 1 else 0)
            && (t.pc == FinalDrain ==> t.awaited == s.inFlight)
  {
    RunFour(c, s, Stop, StopTaskDone, WaitDone, Stop);
    hide Run;
  }

  // ----- what became of each job

  function ToldNext(s: State, told: seq<seq<bool>>, e: Event): seq<seq<bool>> {
    if e.Work? && e.job < |told| then told[e.job := told[e.job] + [e.ok]]
    else if e.PopJob? && s.pc == Popping then told + [[]]
    else told
  }

  /** For each popped job, how its steps went, in order: executing, storing, acking. */
  function Told(c: Config, events: seq<Event>): (told: seq<seq<bool>>)
    ensures |told| == |Run(c, Init(c), events).pool.jobs|
  {
    if events == [] then []
    else
      var front, e := events[..|events| - 1], events[|events| - 1];
      var told := Told(c, front);
      SameJobs(c, Run(c, Init(c), front), e);
      ToldNext(Run(c, Init(c), front), told, e)
  }

  lemma SameJobs(c: Config, s: State, e: Event)
    ensures |Step(c, s, e).pool.jobs| == |s.pool.jobs| + if e.PopJob? && s.pc == Popping then 1 else 0
    ensures !e.Work? && !(e.PopJob? && s.pc == Popping) ==>
              Step(c, s, e).pool == s.pool.(permits := Step(c, s, e).pool.permits)
  {
    match e
    case Work(j, ok) =>
    case PopJob => hide WorkOn;
    case _ => hide WorkOn, Popped;
  }

  /** The job those steps make. It is executed whatever comes of it; it is stored only after that, and acked only
      once stored; anything told to it later is ignored. */
  function JobAfter(told: seq<bool>): Job {
    if told == [] then Job(Executing, 0, false, false)
    else if |told| == 1 then Job(Storing, 1, false, false)
    else if !told[1] then Job(Done, 1, false, false)
    else if |told| == 2 then Job(Acking, 1, true, false)
    else Job(Done, 1, true, told[2])
  }

  datatype Fate = Processed | Failed | Acknowledged | Lost

  predicate Meets(fate: Fate, told: seq<bool>) {
    match fate
    case Processed => told != [] && told[0]
    case Failed => told != [] && !told[0]
    case Acknowledged => |told| >= 3 && told[1] && told[2]
    case Lost => |told| >= 2 && (!told[1] || (|told| >= 3 && !told[2]))
  }

  function HowMany(fate: Fate, told: seq<seq<bool>>): nat {
    if told == [] then 0 else HowMany(fate, told[..|told| - 1]) + if Meets(fate, told[|told| - 1]) then 1 else 0
  }

  function OneIf(b: bool): nat {
    if b then 1 else 0
  }

  lemma {:induction false} HowManyUpdate(fate: Fate, told: seq<seq<bool>>, j: nat, t: seq<bool>)
    requires j < |told|
    ensures HowMany(fate, told[j := t]) == HowMany(fate, told) - OneIf(Meets(fate, told[j])) + OneIf(Meets(fate, t))
  {
    hide Meets;
    var n := |told| - 1;
    if j < n {
      HowManyUpdate(fate, told[..n], j, t);
      assert told[j := t][..n] == told[..n][j := t];
    } else {
      assert told[j := t][..n] == told[..n];
    }
  }

  lemma HowManyAppend(fate: Fate, told: seq<seq<bool>>)
    ensures HowMany(fate, told + [[]]) == HowMany(fate, told)
  {
    assert (told + [[]])[..|told|] == told;
  }

  ghost predicate Accounts(p: Pool, told: seq<seq<bool>>) {
    && |p.jobs| == |told|
    && (forall j :: 0 <= j < |told| ==> p.jobs[j] == JobAfter(told[j]))
    && p.processed == HowMany(Processed, told) && p.failed == HowMany(Failed, told)
    && p.acks == HowMany(Acknowledged, told) && p.errors == HowMany(Lost, told)
  }

  lemma WorkAccounts(p: Pool, told: seq<seq<bool>>, j: nat, ok: bool)
    requires Accounts(p, told) && j < |told|
    ensures Accounts(WorkOn(p, j, ok), told[j := told[j] + [ok]])
  {
    hide HowMany;
    HowManyUpdate(Processed, told, j, told[j] + [ok]);
    HowManyUpdate(Failed, told, j, told[j] + [ok]);
    HowManyUpdate(Acknowledged, told, j, told[j] + [ok]);
    HowManyUpdate(Lost, told, j, told[j] + [ok]);
    assert p.jobs[j] == JobAfter(told[j]);
  }

  lemma PopAccounts(s: State, told: seq<seq<bool>>)
    requires Accounts(s.pool, told)
    ensures Accounts(Popped(s).pool, told + [[]])
  {
    HowManyAppend(Processed, told);
    HowManyAppend(Failed, told);
    HowManyAppend(Acknowledged, told);
    HowManyAppend(Lost, told);
    hide HowMany;
  }

  lemma AccountsStep(c: Config, s: State, told: seq<seq<bool>>, e: Event)
    requires Accounts(s.pool, told)
    ensures Accounts(Step(c, s, e).pool, ToldNext(s, told, e))
  {
    hide HowMany, JobAfter;
    SameJobs(c, s, e);
    if e.Work? {
      hide Popped;
      if e.job < |told| {
        WorkAccounts(s.pool, told, e.job, e.ok);
      }
    } else if e.PopJob? {
      hide WorkOn;
      PopAccounts(s, told);
    } else {
      hide Step;
    }
  }

  /** On every run each job is where its own steps have brought it, and each counter counts the jobs whose steps went
      that way: processed and failed those that executed well and badly, acks and errors those that got through and
      those that did not. */
  lemma {:induction false} JobsFollowTheirSteps(c: Config, events: seq<Event>)
    ensures Accounts(Run(c, Init(c), events).pool, Told(c, events))
  {
    if events != [] {
      var front, e := events[..|events| - 1], events[|events| - 1];
      var s, told := Run(c, Init(c), front), Told(c, front);
      JobsFollowTheirSteps(c, front);
      hide Step, Accounts;
      AccountsStep(c, s, told, e);
    }
  }

  /** A finished job whose callback has run is not in flight again, so it is not waited for. */
  lemma {:induction false} DiscardedStaysOut(c: Config, events: seq<Event>, more: seq<Event>, j: nat)
    requires Finished(Run(c, Init(c), events).pool, j)
    ensures var s := Run(c, Run(c, Init(c), events + [Discard(j)]), more);
            j !in s.inFlight && j < |s.pool.jobs|
  {
    if more == [] {
      assert (events + [Discard(j)])[..|events|] == events;
    } else {
      DiscardedStaysOut(c, events, more[..|more| - 1], j);
      OutStaysOut(c, Run(c, Run(c, Init(c), events + [Discard(j)]), more[..|more| - 1]), more[|more| - 1], j);
    }
  }

  lemma OutStaysOut(c: Config, s: State, e: Event, j: nat)
    requires j !in s.inFlight && j < |s.pool.jobs|
    ensures j !in Step(c, s, e).inFlight && j < |Step(c, s, e).pool.jobs|
  {
    SameJobs(c, s, e);
  }
}

/** RuntimeWorker from workers.py as a state machine. Each event is what runs between two awaits: of the
    consuming loop, of one job's task, or of a caller of stop(). An event that is not possible changes nothing. */
module Worker {

  datatype Config = Config(concurrency: nat, untilIdle: bool, shutdownTimeout: bool)

  datatype Phase = Executing | Storing | Acking | Done
  datatype Job = Job(phase: Phase, runs: nat, stored: bool, acked: bool)

  // The semaphore, the popped jobs in order, and the counters.
  datatype Pool = Pool(permits: nat, jobs: seq<Job>, processed: nat, failed: nat, errors: nat, acks: nat)

  datatype Pc = Top | Acquiring | Popping | IdleDrain | FinalDrain | Returned | Raised

  // `held`: the loop has acquired a permit and not yet handed it on. `awaited`: what a drain gathers.
  datatype State = State(pc: Pc, held: bool, stopping: bool, stopSeen: bool,
                         inFlight: set<nat>, awaited: set<nat>, timedOut: bool, pool: Pool)

  datatype Event =
    | Stop                        // a caller sets the event
    | StopTaskDone                // the future waiting for it resolves
    | LoopTop                     // the loop's condition
    | Grant                       // the semaphore lets the loop's acquire through
    | WaitDone                    // the loop resumes after waiting for either
    | PopNone | PopJob | PopRaises
    | Work(job: nat, ok: bool)    // a job's task executes, then stores its result, then acks
    | Discard(job: nat)           // a finished task's done callback
    | DrainDone
    | DrainTimeout

  function Init(c: Config): State {
    State(Top, false, false, false, {}, {}, false, Pool(c.concurrency, [], 0, 0, 0, 0))
  }

  /** What a job's task does next. Whatever goes wrong, it ends by releasing its permit. */
  function WorkOn(p: Pool, i: nat, ok: bool): Pool {
    if i >= |p.jobs| then p
    else
      var j := p.jobs[i];
      var done := p.(jobs := p.jobs[i := j.(phase := Done)], permits := p.permits + 1);
      match j.phase
      case Executing =>
        var q := p.(jobs := p.jobs[i := j.(phase := Storing, runs := j.runs + 1)]);
        if ok then q.(processed := q.processed + 1) else q.(failed := q.failed + 1)
      case Storing =>
        if ok then p.(jobs := p.jobs[i := j.(phase := Acking, stored := true)]) else done.(errors := p.errors + 1)
      case Acking =>
        if ok then p.(jobs := p.jobs[i := j.(phase := Done, acked := true)], permits := p.permits + 1,
                      acks := p.acks + 1)
        else done.(errors := p.errors + 1)
      case Done => p
  }

  predicate Finished(p: Pool, j: nat) {
    j < |p.jobs| && p.jobs[j].phase == Done
  }

  function Acquired(s: State): State
    requires s.pool.permits > 0
  {
    s.(held := true, pool := s.pool.(permits := s.pool.permits - 1))
  }

  function GiveBack(s: State): State {
    s.(held := false, pool := s.pool.(permits := s.pool.permits + 1))
  }

  function StartFinalDrain(s: State): State {
    if s.inFlight == {} then s.(pc := Returned) else s.(pc := FinalDrain, awaited := s.inFlight)
  }

  function Waited(s: State): State {
    if s.stopSeen then StartFinalDrain(if s.held then GiveBack(s) else s)
    else if s.held then s.(pc := Popping)
    else s
  }

  function Idle(c: Config, s: State): State {
    if !c.untilIdle then s.(pc := Top)
    else if s.inFlight == {} then s.(pc := Returned)
    else s.(pc := IdleDrain, awaited := s.inFlight)
  }

  function Popped(s: State): State {
    var id := |s.pool.jobs|;
    s.(pc := Top, held := false, inFlight := s.inFlight + {id},
       pool := s.pool.(jobs := s.pool.jobs + [Job(Executing, 0, false, false)]))
  }

  function Drained(s: State, gaveUp: bool): State {
    if s.pc == IdleDrain then s.(pc := Top)
    else if s.pc == FinalDrain then s.(pc := Returned, timedOut := gaveUp)
    else s
  }

  function Step(c: Config, s: State, e: Event): State {
    match e
    case Stop => s.(stopping := true)
    case StopTaskDone => if s.stopping then s.(stopSeen := true) else s
    case LoopTop => if s.pc != Top then s else if s.stopping then StartFinalDrain(s) else s.(pc := Acquiring)
    case Grant => if s.pc == Acquiring && !s.held && s.pool.permits > 0 then Acquired(s) else s
    case WaitDone => if s.pc == Acquiring then Waited(s) else s
    case PopNone => if s.pc == Popping then Idle(c, GiveBack(s)) else s
    case PopJob => if s.pc == Popping then Popped(s) else s
    case PopRaises => if s.pc == Popping then s.(pc := Raised) else s
    case Work(j, ok) => s.(pool := WorkOn(s.pool, j, ok))
    case Discard(j) => if Finished(s.pool, j) then s.(inFlight := s.inFlight - {j}) else s
    case DrainDone => if forall j :: j in s.awaited ==> Finished(s.pool, j) then Drained(s, false) else s
    case DrainTimeout => if c.shutdownTimeout then Drained(s, true) else s
  }

  function Run(c: Config, s: State, events: seq<Event>): State {
    if events == [] then s else Step(c, Run(c, s, events[..|events| - 1]), events[|events| - 1])
  }

  // ----- counting jobs

  // The ways a job can count.
  datatype What = Unreleased | Ran | Acked

  predicate Counts(what: What, j: Job) {
    match what
    case Unreleased => j.phase != Done
    case Ran => j.runs > 0
    case Acked => j.acked
  }

  function Count(what: What, jobs: seq<Job>): nat {
    if jobs == [] then 0
    else Count(what, jobs[..|jobs| - 1]) + (if Counts(what, jobs[|jobs| - 1]) then 1 else 0)
  }

  function One(what: What, j: Job): nat {
    if Counts(what, j) then 1 else 0
  }

  lemma {:induction false} CountUpdate(what: What, jobs: seq<Job>, i: nat, j: Job)
    requires i < |jobs|
    ensures Count(what, jobs[i := j]) == Count(what, jobs) - One(what, jobs[i]) + One(what, j)
  {
    var n := |jobs| - 1;
    if i < n {
      CountUpdate(what, jobs[..n], i, j);
      assert jobs[i := j][..n] == jobs[..n][i := j];
    } else {
      assert jobs[i := j][..n] == jobs[..n];
    }
  }

  lemma CountAppend(what: What, jobs: seq<Job>, j: Job)
    ensures Count(what, jobs + [j]) == Count(what, jobs) + One(what, j)
  {
    assert (jobs + [j])[..|jobs|] == jobs;
  }

  lemma {:induction false} CountAll(what: What, jobs: seq<Job>, all: bool)
    requires forall i :: 0 <= i < |jobs| ==> Counts(what, jobs[i]) == all
    ensures Count(what, jobs) == if all then |jobs| else 0
  {
    if jobs != [] {
      CountAll(what, jobs[..|jobs| - 1], all);
    }
  }

  // ----- the invariant

  /** A job runs once, is stored only after it ran and acked only after it was stored. */
  predicate Sound(j: Job) {
    && j.runs == (if j.phase == Executing then 0 else 1)
    && (j.phase == Acking ==> j.stored)
    && (j.stored ==> j.runs == 1)
    && (j.acked ==> j.stored && j.phase == Done)
    && (j.phase == Executing || j.phase == Storing ==> !j.stored)
  }

  /** Every permit is free, held by the loop, or held by a job that has not released it; every counter
      counts what it should. */
  ghost predicate PoolInv(c: Config, p: Pool, held: bool) {
    && p.permits + Count(Unreleased, p.jobs) + (if held then 1 else 0) == c.concurrency
    && p.processed + p.failed == Count(Ran, p.jobs)
    && p.acks == Count(Acked, p.jobs)
    && p.acks + p.errors + Count(Unreleased, p.jobs) == |p.jobs|
    && (forall j :: 0 <= j < |p.jobs| ==> Sound(p.jobs[j]))
  }

  predicate Unfinished(p: Pool, j: nat) {
    j < |p.jobs| && p.jobs[j].phase != Done
  }

  /** Unfinished jobs are in flight, the final drain awaits them all, and nothing is unfinished after it. */
  ghost predicate LoopInv(s: State) {
    && (forall j :: Unfinished(s.pool, j) ==> j in s.inFlight)
    && (s.pc == FinalDrain ==> forall j :: Unfinished(s.pool, j) ==> j in s.awaited)
    && (s.pc == Returned && !s.timedOut ==> forall j :: !Unfinished(s.pool, j))
    && (s.held ==> s.pc == Acquiring || s.pc == Popping || s.pc == Raised)
    && (s.pc == Popping ==> s.held)
  }

  ghost predicate Inv(c: Config, s: State) {
    PoolInv(c, s.pool, s.held) && LoopInv(s)
  }

  // ----- preservation

  lemma WorkKeepsPool(c: Config, p: Pool, held: bool, i: nat, ok: bool)
    requires PoolInv(c, p, held)
    ensures PoolInv(c, WorkOn(p, i, ok), held)
    ensures forall j :: Unfinished(WorkOn(p, i, ok), j) ==> Unfinished(p, j)
  {
    hide Count;
    if i < |p.jobs| {
      var q := WorkOn(p, i, ok);
      var j := q.jobs[i];
      assert Sound(p.jobs[i]) && Sound(j);
      if p.jobs[i].phase != Done {
        assert q.jobs == p.jobs[i := j];
        CountUpdate(Unreleased, p.jobs, i, j);
        CountUpdate(Ran, p.jobs, i, j);
        CountUpdate(Acked, p.jobs, i, j);
      }
    }
  }

  lemma PopKeepsInv(c: Config, s: State)
    requires Inv(c, s) && s.pc == Popping
    ensures Inv(c, Popped(s))
  {
    hide Count;
    var j := Job(Executing, 0, false, false);
    CountAppend(Unreleased, s.pool.jobs, j);
    CountAppend(Ran, s.pool.jobs, j);
    CountAppend(Acked, s.pool.jobs, j);
    forall k | Unfinished(Popped(s).pool, k) ensures k == |s.pool.jobs| || Unfinished(s.pool, k) {
    }
  }

  /** The loop's own moves leave the jobs alone and hand permits over one at a time. */
  lemma LoopMoveKeepsInv(c: Config, s: State, t: State)
    requires Inv(c, s)
    requires t.pool == s.pool.(permits := t.pool.permits)
    requires t.pool.permits + (if t.held then 1 else 0) == s.pool.permits + (if s.held then 1 else 0)
    requires forall j :: Unfinished(s.pool, j) ==> j in t.inFlight
    requires t.pc == FinalDrain ==> forall j :: Unfinished(s.pool, j) ==> j in t.awaited
    requires t.pc == Returned && !t.timedOut ==> forall j :: !Unfinished(s.pool, j)
    requires t.held ==> t.pc == Acquiring || t.pc == Popping || t.pc == Raised
    requires t.pc == Popping ==> t.held
    ensures Inv(c, t)
  {
    assert forall j :: Unfinished(t.pool, j) <==> Unfinished(s.pool, j);
  }

  lemma PopAndWaitKeepInv(c: Config, s: State, e: Event)
    requires Inv(c, s) && (e.WaitDone? || e.PopNone? || e.PopRaises? || e.LoopTop?)
    ensures Inv(c, Step(c, s, e))
  {
    hide PoolInv, WorkOn, Popped, Drained;
    LoopMoveKeepsInv(c, s, Step(c, s, e));
  }

  lemma SignalsKeepInv(c: Config, s: State, e: Event)
    requires Inv(c, s) && (e.Stop? || e.StopTaskDone? || e.Grant? || e.Discard?)
    ensures Inv(c, Step(c, s, e))
  {
    hide PoolInv, WorkOn, Popped, Drained, Waited, Idle, StartFinalDrain;
    LoopMoveKeepsInv(c, s, Step(c, s, e));
  }

  lemma DrainsKeepInv(c: Config, s: State, e: Event)
    requires Inv(c, s) && (e.DrainDone? || e.DrainTimeout?)
    ensures Inv(c, Step(c, s, e))
  {
    hide PoolInv, WorkOn, Popped, Waited, Idle, StartFinalDrain;
    LoopMoveKeepsInv(c, s, Step(c, s, e));
  }

  lemma StepKeepsInv(c: Config, s: State, e: Event)
    requires Inv(c, s)
    ensures Inv(c, Step(c, s, e))
  {
    match e {
      case Work(j, ok) =>
        hide PoolInv, WorkOn;
        WorkKeepsPool(c, s.pool, s.held, j, ok);
      case PopJob =>
        hide PoolInv, Popped;
        if s.pc == Popping {
          PopKeepsInv(c, s);
        }
      case WaitDone => PopAndWaitKeepInv(c, s, e);
      case PopNone => PopAndWaitKeepInv(c, s, e);
      case PopRaises => PopAndWaitKeepInv(c, s, e);
      case LoopTop => PopAndWaitKeepInv(c, s, e);
      case DrainDone => DrainsKeepInv(c, s, e);
      case DrainTimeout => DrainsKeepInv(c, s, e);
      case _ => SignalsKeepInv(c, s, e);
    }
  }

  /** The invariant holds on every interleaving. */
  lemma {:induction false} EveryRunIsSafe(c: Config, events: seq<Event>)
    ensures Inv(c, Run(c, Init(c), events))
  {
    hide Step, Inv;
    if events == [] {
      InitInv(c);
    } else {
      EveryRunIsSafe(c, events[..|events| - 1]);
      StepKeepsInv(c, Run(c, Init(c), events[..|events| - 1]), events[|events| - 1]);
    }
  }

  lemma InitInv(c: Config)
    ensures Inv(c, Init(c))
  {
  }

  // ----- main results

  /** When run() has returned without giving up on its drain, every popped job ran once and is finished,
      every counter accounts for every job, and every permit is free again. */
  lemma ReturnedMeansFinished(c: Config, events: seq<Event>)
    requires var s := Run(c, Init(c), events); s.pc == Returned && !s.timedOut
    ensures var p := Run(c, Init(c), events).pool;
            && (forall j :: 0 <= j < |p.jobs| ==> p.jobs[j].phase == Done && p.jobs[j].runs == 1)
            && p.processed + p.failed == |p.jobs|
            && p.acks + p.errors == |p.jobs|
            && p.permits == c.concurrency
  {
    hide Run;
    EveryRunIsSafe(c, events);
    var p := Run(c, Init(c), events).pool;
    forall j | 0 <= j < |p.jobs| ensures Counts(Ran, p.jobs[j]) && !Counts(Unreleased, p.jobs[j])
        && p.jobs[j].runs == 1 {
      assert Sound(p.jobs[j]) && !Unfinished(p, j);
    }
    CountAll(Ran, p.jobs, true);
    CountAll(Unreleased, p.jobs, false);
  }

  /** A drain gives up only when a shutdown timeout is set. */
  lemma {:induction false} NoTimeoutNoGivingUp(c: Config, events: seq<Event>)
    requires !c.shutdownTimeout
    ensures !Run(c, Init(c), events).timedOut
  {
    hide Step;
    if events != [] {
      NoTimeoutNoGivingUp(c, events[..|events| - 1]);
      NoTimeoutStep(c, Run(c, Init(c), events[..|events| - 1]), events[|events| - 1]);
    }
  }

  lemma NoTimeoutStep(c: Config, s: State, e: Event)
    requires !c.shutdownTimeout && !s.timedOut
    ensures !Step(c, s, e).timedOut
  {
    hide WorkOn;
  }

  /** At no point of any run is a job acked whose result is not stored, or more than `concurrency` jobs unfinished. */
  lemma AckedOnlyAfterStored(c: Config, events: seq<Event>)
    ensures var p := Run(c, Init(c), events).pool;
            && (forall j :: 0 <= j < |p.jobs| && p.jobs[j].acked ==> p.jobs[j].stored && p.jobs[j].runs == 1)
            && Count(Unreleased, p.jobs) <= c.concurrency
  {
    hide Run;
    EveryRunIsSafe(c, events);
    var p := Run(c, Init(c), events).pool;
    forall j | 0 <= j < |p.jobs| && p.jobs[j].acked ensures p.jobs[j].stored && p.jobs[j].runs == 1 {
      assert Sound(p.jobs[j]);
    }
  }

  /** Once run() is over, a job can be unfinished only because a pop raised or a drain gave up. */
  lemma LeftUnfinished(c: Config, events: seq<Event>, j: nat)
    requires var s := Run(c, Init(c), events); (s.pc == Returned || s.pc == Raised) && Unfinished(s.pool, j)
    ensures var s := Run(c, Init(c), events); s.pc == Raised || s.timedOut
  {
    hide Run;
    EveryRunIsSafe(c, events);
  }

  lemma Next(c: Config, events: seq<Event>, e: Event, s: State)
    requires Step(c, Run(c, Init(c), events), e) == s
    ensures Run(c, Init(c), events + [e]) == s
  {
    assert (events + [e])[..|events|] == events;
  }

  /** One job popped, and the loop back at its condition. */
  lemma OneJob(c: Config) returns (events: seq<Event>, s: State)
    requires c.concurrency >= 2
    ensures Run(c, Init(c), events) == s && s.pc == Top && !s.held && !s.stopping && !s.stopSeen
    ensures s.inFlight == {0} && s.pool == Pool(c.concurrency - 1, [Job(Executing, 0, false, false)], 0, 0, 0, 0)
  {
    s := Init(c);
    events := [];
    hide Run;
    assert Run(c, Init(c), []) == s by {
      NoEvents(c);
    }
    events, s := After(c, events, s, LoopTop);
    events, s := After(c, events, s, Grant);
    events, s := After(c, events, s, WaitDone);
    events, s := After(c, events, s, PopJob);
  }

  lemma NoEvents(c: Config)
    ensures Run(c, Init(c), []) == Init(c)
  {
  }

  lemma After(c: Config, events: seq<Event>, s: State, e: Event) returns (more: seq<Event>, t: State)
    requires Run(c, Init(c), events) == s
    ensures Run(c, Init(c), more) == t == Step(c, s, e)
  {
    more, t := events + [e], Step(c, s, e);
    Next(c, events, e, t);
  }

  /** A pop that raises ends run() at once: here with a job still to run. */
  lemma RaisingLeavesAJob(c: Config) returns (events: seq<Event>)
    requires c.concurrency >= 2
    ensures var s := Run(c, Init(c), events); s.pc == Raised && Unfinished(s.pool, 0)
  {
    hide Run, WorkOn, Drained;
    var s: State;
    events, s := OneJob(c);
    events, s := After(c, events, s, LoopTop);
    events, s := After(c, events, s, Grant);
    events, s := After(c, events, s, WaitDone);
    events, s := After(c, events, s, PopRaises);
  }

  /** So can a drain that gives up. */
  lemma GivingUpLeavesAJob(c: Config) returns (events: seq<Event>)
    requires c.concurrency >= 2 && c.shutdownTimeout
    ensures var s := Run(c, Init(c), events); s.pc == Returned && s.timedOut && Unfinished(s.pool, 0)
  {
    hide Run, WorkOn, Waited, Popped;
    var s: State;
    events, s := OneJob(c);
    events, s := After(c, events, s, Stop);
    events, s := After(c, events, s, LoopTop);
    events, s := After(c, events, s, DrainTimeout);
  }

  /** How many more jobs a worker that was told to stop can still take. */
  function StillTakes(s: State): nat {
    if s.pc == Acquiring || s.pc == Popping then 1 else 0
  }

  lemma StoppingStep(c: Config, s: State, e: Event)
    requires s.stopping
    ensures var t := Step(c, s, e); t.stopping && |t.pool.jobs| + StillTakes(t) <= |s.pool.jobs| + StillTakes(s)
  {
  }

  /** After stop() at most one more job is popped, and none if the loop was not already on its way to one. */
  lemma {:induction false} StopTakesAtMostOneMore(c: Config, s: State, events: seq<Event>)
    requires s.stopping
    ensures var t := Run(c, s, events); t.stopping && |t.pool.jobs| + StillTakes(t) <= |s.pool.jobs| + StillTakes(s)
  {
    hide Step;
    if events != [] {
      StopTakesAtMostOneMore(c, s, events[..|events| - 1]);
      StoppingStep(c, Run(c, s, events[..|events| - 1]), events[|events| - 1]);
    }
  }

  lemma StepWork(c: Config, s: State, i: nat, ok: bool)
    ensures Step(c, s, Work(i, ok)) == s.(pool := WorkOn(s.pool, i, ok))
  {
    hide WorkOn;
  }

  lemma StepPop(c: Config, s: State)
    requires s.pc == Popping
    ensures Step(c, s, PopJob) == Popped(s) && Step(c, s, PopNone) == Idle(c, GiveBack(s))
  {
    hide Popped, Idle, GiveBack;
  }

  // ----- the worker object: each method is one stretch between awaits

  class RuntimeWorker {
    const config: Config
    var pc: Pc
    var held: bool
    var stopping: bool
    var stopSeen: bool
    var inFlight: set<nat>
    var awaited: set<nat>
    var timedOut: bool
    var permits: nat
    var jobs: seq<Job>
    var processed: nat
    var failed: nat
    var errors: nat
    var acks: nat

    constructor (config: Config)
      ensures this.config == config && Now() == Init(config)
    {
      this.config := config;
      pc, held, stopping, stopSeen, timedOut := Top, false, false, false, false;
      inFlight, awaited := {}, {};
      permits, jobs := config.concurrency, [];
      processed, failed, errors, acks := 0, 0, 0, 0;
    }

    function Now(): State
      reads this
    {
      State(pc, held, stopping, stopSeen, inFlight, awaited, timedOut,
            Pool(permits, jobs, processed, failed, errors, acks))
    }

    method RequestStop()
      modifies this
      ensures Now() == Step(config, old(Now()), Stop)
    {
      stopping := true;
    }

    /** Start draining what is in flight, or return at once. */
    method Leave()
      modifies this
      ensures Now() == StartFinalDrain(old(Now()))
    {
      if inFlight == {} {
        pc := Returned;
      } else {
        pc, awaited := FinalDrain, inFlight;
      }
    }

    method CheckStopping()
      requires pc == Top
      modifies this
      ensures Now() == Step(config, old(Now()), LoopTop)
    {
      if stopping {
        Leave();
      } else {
        pc := Acquiring;
      }
    }

    method Acquire()
      requires pc == Acquiring && !held && permits > 0
      modifies this
      ensures Now() == Step(config, old(Now()), Grant)
    {
      permits := permits - 1;
      held := true;
    }

    method AfterWait()
      requires pc == Acquiring && (held || stopSeen)
      modifies this
      ensures Now() == Step(config, old(Now()), WaitDone)
      ensures pc == Popping <==> !stopSeen
      ensures permits == old(permits) + if stopSeen && old(held) then 1 else 0
    {
      if stopSeen {
        if held {
          permits := permits + 1;
          held := false;
        }
        Leave();
      } else {
        pc := Popping;
      }
    }

    method AfterPop(found: bool)
      requires pc == Popping
      modifies this
      ensures Now() == Step(config, old(Now()), if found then PopJob else PopNone)
      // Without a job the permit is free again, and only a run until idle with nothing in flight is over.
      ensures !found ==> permits == old(permits) + 1 && jobs == old(jobs) && inFlight == old(inFlight)
      ensures pc == Returned <==> !found && config.untilIdle && old(inFlight) == {}
      ensures pc == IdleDrain <==> !found && config.untilIdle && old(inFlight) != {}
      ensures found ==> |jobs| == |old(jobs)| + 1 && inFlight == old(inFlight) + {|old(jobs)|}
      ensures found ==> permits == old(permits)
    {
      StepPop(config, Now());
      hide Step;
      held := false;
      if found {
        inFlight := inFlight + {|jobs|};
        jobs := jobs + [Job(Executing, 0, false, false)];
        pc := Top;
        return;
      }
      permits := permits + 1;
      if !config.untilIdle {
        pc := Top;
      } else if inFlight == {} {
        pc := Returned;
      } else {
        pc, awaited := IdleDrain, inFlight;
      }
    }

    /** _process, one await at a time. */
    method Process(i: nat, ok: bool)
      requires i < |jobs|
      modifies this
      ensures Now() == Step(config, old(Now()), Work(i, ok))
    {
      StepWork(config, Now(), i, ok);
      hide Step;
      var j := jobs[i];
      match j.phase
      case Done =>
      case Executing =>
        jobs := jobs[i := j.(phase := Storing, runs := j.runs + 1)];
        if ok {
          processed := processed + 1;
        } else {
          failed := failed + 1;
        }
      case Storing =>
        if ok {
          jobs := jobs[i := j.(phase := Acking, stored := true)];
        } else {
          jobs := jobs[i := j.(phase := Done)];
          errors := errors + 1;
          permits := permits + 1;
        }
      case Acking =>
        if ok {
          jobs := jobs[i := j.(phase := Done, acked := true)];
          acks := acks + 1;
        } else {
          jobs := jobs[i := j.(phase := Done)];
          errors := errors + 1;
        }
        permits := permits + 1;
    }

    method DrainEnds(gaveUp: bool)
      requires pc == IdleDrain || pc == FinalDrain
      requires if gaveUp then config.shutdownTimeout else forall j :: j in awaited ==> Finished(Now().pool, j)
      modifies this
      ensures Now() == Step(config, old(Now()), if gaveUp then DrainTimeout else DrainDone)
    {
      if pc == IdleDrain {
        pc := Top;
      } else {
        pc, timedOut := Returned, gaveUp;
      }
    }
  }
}

/** RedisStreamQueue from workers.py: a prefetch buffer in front of a consumer group that hands each entry out once. */
module StreamQueue {
  import opened Wrappers
  import Worker

  // An entry of the stream. Its payload may not be JSON; its job id may be missing.
  datatype Entry = Entry(tag: string, id: Option<string>, payload: Option<string>)
  datatype Job = Job(id: string, payload: string, tag: string)

  datatype PopResult = Popped(job: Job) | Nothing | Raised

  function JobOf(e: Entry): Job {
    Job(e.id.GetOr(e.tag), e.payload.GetOr(""), e.tag)
  }

  function Jobs(entries: seq<Entry>): (r: seq<Job>)
    ensures |r| == |entries|
  {
    seq(|entries|, k requires 0 <= k < |entries| => JobOf(entries[k]))
  }

  /** How many entries at the front are well formed. */
  function GoodRun(entries: seq<Entry>): (n: nat)
    ensures n <= |entries|
    ensures forall k :: 0 <= k < n ==> entries[k].payload.Some?
    ensures n < |entries| ==> entries[n].payload.None?
  {
    if entries == [] || entries[0].payload.None? then 0 else 1 + GoodRun(entries[1..])
  }

  // What the group has handed to this consumer, call by call, and what came of it.
  datatype History = History(batches: seq<seq<Entry>>, popped: seq<Job>)

  /** What reaches the buffer: of each batch, the entries before its first malformed one. */
  function Kept(batches: seq<seq<Entry>>): seq<Job> {
    if batches == [] then []
    else
      var b := batches[|batches| - 1];
      Kept(batches[..|batches| - 1]) + Jobs(b[..GoodRun(b)])
  }

  ghost predicate WellFormed(batches: seq<seq<Entry>>) {
    forall k :: 0 <= k < |batches| ==> GoodRun(batches[k]) == |batches[k]|
  }

  /** Everything handed out reaches the buffer exactly when every payload handed out is JSON. */
  lemma {:induction false} AllBuffered(batches: seq<seq<Entry>>)
    ensures |Kept(batches)| <= |Flatten(batches)|
    ensures |Kept(batches)| == |Flatten(batches)| ==> Kept(batches) == Jobs(Flatten(batches))
    ensures Kept(batches) == Jobs(Flatten(batches)) <==> WellFormed(batches)
  {
    if batches != [] {
      var front, b := batches[..|batches| - 1], batches[|batches| - 1];
      AllBuffered(front);
      var n := GoodRun(b);
      if WellFormed(batches) {
        assert b[..n] == b;
        assert Jobs(Flatten(front) + b) == Jobs(Flatten(front)) + Jobs(b);
      } else if n == |b| {
        assert !WellFormed(front);
        KeptShorter(front);
      }
    }
  }

  lemma {:induction false} KeptShorter(batches: seq<seq<Entry>>)
    requires !WellFormed(batches)
    ensures |Kept(batches)| < |Flatten(batches)|
  {
    var front, b := batches[..|batches| - 1], batches[|batches| - 1];
    AllBuffered(front);
    if !WellFormed(front) {
      KeptShorter(front);
    }
  }

  /** Everything handed out is served, in order, exactly when every payload is JSON and nothing waits in the buffer. */
  lemma AllServedIff(batches: seq<seq<Entry>>, popped: seq<Job>, buffer: seq<Job>)
    requires popped + buffer == Kept(batches)
    ensures popped == Jobs(Flatten(batches)) <==> WellFormed(batches) && buffer == []
  {
    AllBuffered(batches);
    assert buffer == [] ==> popped + buffer == popped;
  }

  /** After a run that returns without giving up on a drain, every entry handed out has been worked
      through exactly when every payload is JSON and nothing waits in the buffer. */
  lemma AllFinishedIff(c: Worker.Config, events: seq<Worker.Event>, batches: seq<seq<Entry>>, popped: seq<Job>,
                       buffer: seq<Job>)
    requires var s := Worker.Run(c, Worker.Init(c), events);
             s.pc == Worker.Returned && !s.timedOut && |s.pool.jobs| == |popped|
    requires popped + buffer == Kept(batches)
    ensures var p := Worker.Run(c, Worker.Init(c), events).pool;
            (forall j :: 0 <= j < |Flatten(batches)| ==> Worker.Finished(p, j))
            <==> WellFormed(batches) && buffer == []
  {
    hide Worker.Run, Flatten, Kept, WellFormed;
    Worker.ReturnedMeansFinished(c, events);
    AllBuffered(batches);
    AllServedIff(batches, popped, buffer);
    var p := Worker.Run(c, Worker.Init(c), events).pool;
    if |popped| < |Flatten(batches)| {
      assert !Worker.Finished(p, |popped|);
    } else {
      assert |buffer| == 0 && popped == Kept(batches);
    }
  }

  /** A batch adds its jobs up to the first payload that is not JSON, which hides the rest of it. */
  lemma MalformedHidesRest(batches: seq<seq<Entry>>, good: seq<Entry>, bad: Entry, rest: seq<Entry>)
    requires bad.payload.None? && forall k :: 0 <= k < |good| ==> good[k].payload.Some?
    ensures Kept([]) == [] && Kept(batches + [good]) == Kept(batches) + Jobs(good)
    ensures Kept(batches + [good + [bad] + rest]) == Kept(batches) + Jobs(good)
    ensures !WellFormed(batches + [good + [bad] + rest])
  {
    var b := good + [bad] + rest;
    assert b[|good|] == bad && GoodRun(b) == |good| && b[..|good|] == good;
    assert GoodRun(good) == |good| && good[..|good|] == good;
    Init(batches, good);
    Init(batches, b);
  }

  /** A job is its entry: the payload and tag as they are, the id its own or else the tag. */
  lemma JobKeepsEntry(e: Entry)
    ensures JobOf(e).tag == e.tag && (e.payload.Some? ==> JobOf(e).payload == e.payload.value)
    ensures JobOf(e).id == if e.id.Some? then e.id.value else e.tag
  {
  }

  class RedisStreamQueue {
    const prefetch: nat
    var buffer: seq<Job>
    ghost var history: History

    constructor (prefetch: int)
      ensures Valid() && buffer == [] && history == History([], [])
      ensures this.prefetch == if prefetch < 1 then 1 else prefetch
    {
      this.prefetch := if prefetch < 1 then 1 else prefetch;
      buffer, history := [], History([], []);
    }

    /** Popped and buffered, in that order, is exactly what was kept of everything handed out. */
    ghost predicate Valid()
      reads this
    {
      history.popped + buffer == Kept(history.batches)
    }

    method TakeFirst() returns (job: Job)
      requires Valid() && buffer != []
      modifies this
      ensures Valid() && job == old(buffer)[0] && buffer == old(buffer)[1..]
      ensures history == old(history).(popped := old(history).popped + [job])
    {
      job := buffer[0];
      assert history.popped + buffer == (history.popped + [job]) + buffer[1..];
      buffer := buffer[1..];
      history := history.(popped := history.popped + [job]);
    }

    /** `answer` is what the server returns if it is asked: at most `prefetch` entries never handed out before. */
    method Pop(answer: seq<Entry>) returns (r: PopResult)
      requires Valid() && |answer| <= prefetch
      modifies this
      ensures Valid()
      ensures r.Popped? ==> history.popped == old(history).popped + [r.job]
      ensures !r.Popped? ==> history.popped == old(history).popped
      ensures history.batches == if old(buffer) != [] then old(history).batches else old(history).batches + [answer]
      ensures old(buffer) != [] ==> r.Popped?
      ensures old(buffer) == [] ==> (r.Raised? <==> GoodRun(answer) < |answer|) && (r.Nothing? <==> answer == [])
      ensures |buffer| <= if |old(buffer)| > prefetch then |old(buffer)| else prefetch
    {
      if buffer != [] {
        var first := TakeFirst();
        return Popped(first);
      }
      assert (history.batches + [answer])[..|history.batches|] == history.batches;
      history := history.(batches := history.batches + [answer]);
      for k := 0 to |answer|
        invariant k <= GoodRun(answer)
        invariant buffer == Jobs(answer[..k])
        invariant history == old(history).(batches := old(history).batches + [answer])
      {
        if answer[k].payload.None? {
          return Raised;
        }
        assert Jobs(answer[..k + 1]) == Jobs(answer[..k]) + [JobOf(answer[k])];
        buffer := buffer + [JobOf(answer[k])];
      }
      if buffer == [] {
        return Nothing;
      }
      var first := TakeFirst();
      r := Popped(first);
    }
  }

  /** Two good entries fetched and one popped: with no more pops, as after a stop, the other stays in the buffer. */
  method StopsEarly(a: Entry, b: Entry) returns (q: RedisStreamQueue)
    requires a.payload.Some? && b.payload.Some?
    ensures q.Valid() && q.history == History([[a, b]], [JobOf(a)]) && WellFormed(q.history.batches)
    ensures q.buffer == [JobOf(b)] && q.history.popped != Jobs(Flatten(q.history.batches))
  {
    q := new RedisStreamQueue(16);
    var batches := [[a, b]];
    assert batches[..0] == [] && GoodRun([a, b]) == 2 && [a, b][..2] == [a, b];
    assert Kept([]) == [] && Kept(batches) == Jobs([a, b]) == [JobOf(a), JobOf(b)];
    var r := q.Pop([a, b]);
    assert q.history.batches == batches;
    assert q.history.popped == [r.job];
    assert [r.job] + q.buffer == [JobOf(a), JobOf(b)];
    assert ([r.job] + q.buffer)[0] == r.job && ([r.job] + q.buffer)[1..] == q.buffer;
    AllServedIff(batches, q.history.popped, q.buffer);
  }
}

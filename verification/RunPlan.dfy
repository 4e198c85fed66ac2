/** plan_runs from agent_showcase/backfill.py: slots drawn day by day, cases dealt without replacement, oldest run
    first. */
module RunPlan {
  import opened Wrappers
  import opened Backfill
  import opened Sorting

  datatype Run = Run(at: int, id: string, agent: nat, dealt: Option<nat>)
  datatype Outcome = Planned(runs: seq<Run>) | Exhausted(id: string)

  // The random choices: how many runs, when on the day, and each pool in the order its cases are sampled.
  datatype Luck = Luck(draw: Draws, when: (int, nat, nat) -> int, deck: nat -> seq<nat>)

  ghost predicate FairDecks(agents: seq<Agent>, luck: Luck) {
    forall k: nat :: k < |agents| ==> |luck.deck(k)| == agents[k].cases && Distinct(luck.deck(k))
  }

  // ----- slots, with their times

  function DrawnTimes(luck: Luck, day: int, k: nat, n: nat): (r: seq<int>)
    ensures |r| == n
  {
    if n == 0 then [] else DrawnTimes(luck, day, k, n - 1) + [luck.when(day, k, n - 1)]
  }

  /** The times the first k agents add to an id on one day. */
  function DayTimes(agents: seq<Agent>, luck: Luck, day: int, id: string, k: nat): (r: seq<int>)
    requires k <= |agents|
    ensures |r| == DaySlots(agents, luck.draw, day, id, k)
  {
    if k == 0 then []
    else
      DayTimes(agents, luck, day, id, k - 1)
      + if agents[k - 1].id == id then DrawnTimes(luck, day, k - 1, RunsOn(luck.draw, day, k - 1)) else []
  }

  function TimesOf(agents: seq<Agent>, luck: Luck, days: seq<int>, id: string): (r: seq<int>)
    ensures |r| == Slots(agents, luck.draw, days, id)
  {
    if days == [] then []
    else TimesOf(agents, luck, days[..|days| - 1], id) + DayTimes(agents, luck, days[|days| - 1], id, |agents|)
  }

  // ----- runs

  predicate Earlier(a: int, b: int) {
    a <= b
  }

  /** Lexicographic, by code point. */
  predicate StringLeq(a: string, b: string) {
    a == "" || (b != "" && (a[0] < b[0] || (a[0] == b[0] && StringLeq(a[1..], b[1..]))))
  }

  predicate RunLeq(a: Run, b: Run) {
    a.at < b.at || (a.at == b.at && StringLeq(a.id, b.id))
  }

  function RunsAt(times: seq<int>, id: string, k: nat, deck: seq<nat>): (r: seq<Run>)
    ensures |r| == |times|
    ensures forall j :: 0 <= j < |times| ==> r[j] == Run(times[j], id, k, if j < |deck| then Some(deck[j]) else None)
  {
    seq(|times|, j requires 0 <= j < |times| => Run(times[j], id, k, if j < |deck| then Some(deck[j]) else None))
  }

  /** An agent's slots, earliest first, with its cases as dealt. One recorded scenario is one event: an agent without a
      pool runs at most once, at its last slot. */
  function AgentRuns(agents: seq<Agent>, luck: Luck, days: seq<int>, k: nat): seq<Run>
    requires k < |agents|
  {
    var times := Sort(Earlier, TimesOf(agents, luck, days, agents[k].id));
    if agents[k].cases == 0 then RunsAt(LastN(times, 1), agents[k].id, k, [])
    else RunsAt(times, agents[k].id, k, luck.deck(k))
  }

  function AllRuns(agents: seq<Agent>, luck: Luck, days: seq<int>, n: nat): seq<Run>
    requires n <= |agents|
  {
    if n == 0 then [] else AllRuns(agents, luck, days, n - 1) + AgentRuns(agents, luck, days, n - 1)
  }

  /** Raises exactly when some agent's slots outnumber its pool, for the first such agent; otherwise every agent's runs
      are planned, in order of time and then id. */
  method PlanRuns(agents: seq<Agent>, days: int, today: int, luck: Luck) returns (r: Outcome)
    ensures PlannedAs(agents, luck, BusinessDays(today - Days(days), Days(days)), r)
  {
    hide BusinessDays, Days, TimesOf, Slots, DaySlots, Overdrawn, AgentRuns, Sort;
    var business := BusinessDays(today - Days(days), Days(days));
    var slots := EmptySlots(agents);
    slots := FillSlots(agents, luck, business, slots);
    var planned: seq<Run> := [];
    for k := 0 to |agents|
      invariant forall j: nat :: j < k ==> !Overdrawn(agents, luck.draw, business, j)
      invariant planned == AllRuns(agents, luck, business, k)
    {
      var runs := PlanAgent(agents, luck, business, k, slots[agents[k].id]);
      if runs.None? {
        assert OverdrawnFirst(agents, luck.draw, business, k);
        return Exhausted(agents[k].id);
      }
      planned := planned + runs.value;
    }
    r := Planned(Sort(RunLeq, planned));
  }

  method PlanAgent(agents: seq<Agent>, luck: Luck, ghost business: seq<int>, k: nat, slots: seq<int>)
      returns (runs: Option<seq<Run>>)
    requires k < |agents| && slots == TimesOf(agents, luck, business, agents[k].id)
    ensures runs.None? <==> Overdrawn(agents, luck.draw, business, k)
    ensures runs.Some? ==> runs.value == AgentRuns(agents, luck, business, k)
  {
    hide TimesOf, Slots, Sort, LastN;
    var times := Sort(Earlier, slots);
    if agents[k].cases == 0 {
      runs := Some(RunsAt(LastN(times, 1), agents[k].id, k, []));
    } else if |times| > agents[k].cases {
      runs := None;
    } else {
      runs := Some(RunsAt(times, agents[k].id, k, luck.deck(k)));
    }
  }

  ghost predicate PlannedAs(agents: seq<Agent>, luck: Luck, business: seq<int>, r: Outcome) {
    match r
    case Exhausted(id) => FirstOverdrawn(agents, luck.draw, business, id)
    case Planned(runs) =>
      && !AnyOverdrawn(agents, luck.draw, business)
      && runs == Sort(RunLeq, AllRuns(agents, luck, business, |agents|))
  }

  ghost predicate FirstOverdrawn(agents: seq<Agent>, draw: Draws, days: seq<int>, id: string) {
    exists k: nat :: k < |agents| && OverdrawnFirst(agents, draw, days, k) && agents[k].id == id
  }

  ghost predicate OverdrawnFirst(agents: seq<Agent>, draw: Draws, days: seq<int>, k: nat)
    requires k < |agents|
  {
    Overdrawn(agents, draw, days, k) && forall j: nat :: j < k ==> !Overdrawn(agents, draw, days, j)
  }

  method EmptySlots(agents: seq<Agent>) returns (slots: map<string, seq<int>>)
    ensures forall k :: 0 <= k < |agents| ==> agents[k].id in slots
    ensures forall id :: id in slots ==> slots[id] == []
  {
    slots := map[];
    for k := 0 to |agents|
      invariant forall j :: 0 <= j < k ==> agents[j].id in slots
      invariant forall id :: id in slots ==> slots[id] == []
    {
      slots := slots[agents[k].id := []];
    }
  }

  method FillSlots(agents: seq<Agent>, luck: Luck, business: seq<int>, empty: map<string, seq<int>>)
      returns (slots: map<string, seq<int>>)
    requires forall k :: 0 <= k < |agents| ==> agents[k].id in empty
    requires forall id :: id in empty ==> empty[id] == []
    ensures slots.Keys == empty.Keys && forall id :: id in slots ==> slots[id] == TimesOf(agents, luck, business, id)
  {
    slots := empty;
    for i := 0 to |business|
      invariant slots.Keys == empty.Keys
      invariant forall id :: id in slots ==> slots[id] == TimesOf(agents, luck, business[..i], id)
    {
      Prefixes(business, i);
      slots := FillDay(agents, luck, business[i], slots);
    }
    assert business[..|business|] == business;
  }

  /** Each id has what the first k agents add to it. */
  ghost predicate FilledTo(agents: seq<Agent>, luck: Luck, day: int, k: nat, before: map<string, seq<int>>,
                           slots: map<string, seq<int>>)
    requires k <= |agents|
  {
    slots.Keys == before.Keys && forall id :: id in before ==>
        slots[id] == before[id] + DayTimes(agents, luck, day, id, k)
  }

  lemma FilledNext(agents: seq<Agent>, luck: Luck, day: int, k: nat, before: map<string, seq<int>>,
                   slots: map<string, seq<int>>)
    requires k < |agents| && agents[k].id in slots && FilledTo(agents, luck, day, k, before, slots)
    ensures var id, drawn := agents[k].id, DrawnTimes(luck, day, k, RunsOn(luck.draw, day, k));
            FilledTo(agents, luck, day, k + 1, before, slots[id := slots[id] + drawn])
  {
    hide RunsOn, DrawnTimes;
    var drawn := DrawnTimes(luck, day, k, RunsOn(luck.draw, day, k));
    forall id | id in before ensures DayTimes(agents, luck, day, id, k + 1)
                                     == DayTimes(agents, luck, day, id, k) + if id == agents[k].id then drawn else []
    {
    }
    hide DayTimes;
  }

  method FillDay(agents: seq<Agent>, luck: Luck, day: int, before: map<string, seq<int>>)
      returns (slots: map<string, seq<int>>)
    requires forall k :: 0 <= k < |agents| ==> agents[k].id in before
    ensures FilledTo(agents, luck, day, |agents|, before, slots)
  {
    slots := before;
    for k := 0 to |agents|
      invariant FilledTo(agents, luck, day, k, before, slots)
    {
      hide RunsOn, DrawnTimes, DayTimes;
      FilledNext(agents, luck, day, k, before, slots);
      var drawn := DrawTimes(luck, day, k, RunsOn(luck.draw, day, k));
      slots := slots[agents[k].id := slots[agents[k].id] + drawn];
    }
  }

  method DrawTimes(luck: Luck, day: int, k: nat, n: nat) returns (times: seq<int>)
    ensures times == DrawnTimes(luck, day, k, n)
  {
    times := [];
    for j := 0 to n
      invariant times == DrawnTimes(luck, day, k, j)
    {
      times := times + [luck.when(day, k, j)];
    }
  }

  // ----- what a plan is

  lemma {:induction false} StringsCompare(a: string, b: string, c: string)
    ensures StringLeq(a, b) || StringLeq(b, a)
    ensures StringLeq(a, b) && StringLeq(b, c) ==> StringLeq(a, c)
  {
    if a != "" && b != "" && c != "" {
      StringsCompare(a[1..], b[1..], c[1..]);
    } else if a != "" && b != "" {
      StringsCompare(a[1..], b[1..], "");
    }
  }

  lemma RunsCompare()
    ensures TotalPreorder(RunLeq)
  {
    forall a: Run, b: Run ensures RunLeq(a, b) || RunLeq(b, a) {
      StringsCompare(a.id, b.id, "");
    }
    forall a: Run, b: Run, c: Run ensures RunLeq(a, b) && RunLeq(b, c) ==> RunLeq(a, c) {
      StringsCompare(a.id, b.id, c.id);
    }
  }

  function RunsFor(runs: seq<Run>, k: nat): nat {
    if runs == [] then 0 else (if runs[0].agent == k then 1 else 0) + RunsFor(runs[1..], k)
  }

  /** No case is dealt twice. */
  ghost predicate DealtOnce(runs: multiset<Run>) {
    && (forall r :: r in runs && r.dealt.Some? ==> runs[r] == 1)
    && (forall r, t :: r in runs && t in runs && r.dealt.Some? && t.dealt == r.dealt && t.agent == r.agent ==> t == r)
  }

  lemma {:induction false} InsertRunsFor(x: Run, s: seq<Run>, k: nat)
    ensures RunsFor(Insert(RunLeq, x, s), k) == RunsFor(s, k) + if x.agent == k then 1 else 0
  {
    if s != [] && !RunLeq(x, s[0]) {
      InsertRunsFor(x, s[1..], k);
    }
  }

  lemma {:induction false} SortRunsFor(s: seq<Run>, k: nat)
    ensures RunsFor(Sort(RunLeq, s), k) == RunsFor(s, k)
  {
    if s != [] {
      SortRunsFor(s[1..], k);
      InsertRunsFor(s[0], Sort(RunLeq, s[1..]), k);
    }
  }

  lemma {:induction false} RunsForConcat(a: seq<Run>, b: seq<Run>, k: nat)
    ensures RunsFor(a + b, k) == RunsFor(a, k) + RunsFor(b, k)
  {
    if a == [] {
      assert a + b == b;
    } else {
      RunsForConcat(a[1..], b, k);
      assert (a + b)[1..] == a[1..] + b;
    }
  }

  ghost predicate AllOf(runs: seq<Run>, k: nat) {
    forall i :: 0 <= i < |runs| ==> runs[i].agent == k
  }

  lemma {:induction false} RunsForOne(runs: seq<Run>, j: nat, k: nat)
    requires AllOf(runs, j)
    ensures RunsFor(runs, k) == if j == k then |runs| else 0
  {
    if runs != [] {
      RunsForOne(runs[1..], j, k);
    }
  }

  /** How many runs an agent is due: its slots, or one of them without a pool. */
  function Due(agents: seq<Agent>, draw: Draws, days: seq<int>, k: nat): nat
    requires k < |agents|
  {
    var slots := Slots(agents, draw, days, agents[k].id);
    if agents[k].cases == 0 && slots > 1 then 1 else slots
  }

  lemma AgentRunsAre(agents: seq<Agent>, luck: Luck, days: seq<int>, k: nat)
    requires k < |agents|
    ensures var runs := AgentRuns(agents, luck, days, k);
            |runs| == Due(agents, luck.draw, days, k) && AllOf(runs, k)
  {
  }

  lemma {:induction false} AllRunsFor(agents: seq<Agent>, luck: Luck, days: seq<int>, n: nat, k: nat)
    requires n <= |agents| && k < |agents|
    ensures RunsFor(AllRuns(agents, luck, days, n), k) == if k < n then Due(agents, luck.draw, days, k) else 0
  {
    hide Due, AgentRuns;
    if n > 0 {
      AllRunsFor(agents, luck, days, n - 1, k);
      assert AllRuns(agents, luck, days, n)
             == AllRuns(agents, luck, days, n - 1) + AgentRuns(agents, luck, days, n - 1);
      hide *;
      AgentRunsAre(agents, luck, days, n - 1);
      RunsForConcat(AllRuns(agents, luck, days, n - 1), AgentRuns(agents, luck, days, n - 1), k);
      RunsForOne(AgentRuns(agents, luck, days, n - 1), n - 1, k);
    }
  }

  ghost predicate DealsApart(runs: seq<Run>) {
    forall i, j :: 0 <= i < j < |runs| && runs[i].dealt.Some? ==> runs[j].dealt != runs[i].dealt
  }

  ghost predicate AllBelow(runs: seq<Run>, n: nat) {
    forall i :: 0 <= i < |runs| ==> runs[i].agent < n
  }

  lemma AgentDealtOnce(agents: seq<Agent>, luck: Luck, days: seq<int>, k: nat)
    requires k < |agents| && FairDecks(agents, luck) && !Overdrawn(agents, luck.draw, days, k)
    ensures DealsApart(AgentRuns(agents, luck, days, k))
  {
    assert Distinct(luck.deck(k));
  }

  lemma OnceNext(s: seq<Run>, x: Run)
    requires DealtOnce(multiset(s))
    requires forall r :: r in s && x.dealt.Some? && r.dealt == x.dealt ==> r.agent != x.agent
    ensures DealtOnce(multiset(s + [x]))
  {
    var m := multiset(s + [x]);
    assert m == multiset(s) + multiset{x};
    assert x in s <==> x in multiset(s);
    assert forall r :: r in multiset(s) <==> r in s;
  }

  lemma DealtApart(runs: seq<Run>, r: Run)
    requires DealsApart(runs) && runs != [] && r in runs[..|runs| - 1] && r.dealt.Some?
    ensures r.dealt != runs[|runs| - 1].dealt
  {
    var i :| 0 <= i < |runs| - 1 && runs[..|runs| - 1][i] == r;
    assert runs[i] == r;
  }

  lemma NotDealtYet(s: seq<Run>, runs: seq<Run>, k: nat, r: Run)
    requires AllBelow(s, k) && AllOf(runs, k) && DealsApart(runs) && runs != []
    requires r in s || r in runs[..|runs| - 1]
    ensures var x := runs[|runs| - 1]; x.dealt.Some? && r.dealt == x.dealt ==> r.agent != x.agent
  {
    hide DealsApart;
    if r in runs[..|runs| - 1] && r.dealt.Some? {
      DealtApart(runs, r);
    }
  }

  lemma OneMore(s: seq<Run>, runs: seq<Run>, k: nat)
    requires AllBelow(s, k) && AllOf(runs, k) && DealsApart(runs) && runs != []
    requires DealtOnce(multiset(s + runs[..|runs| - 1]))
    ensures DealtOnce(multiset(s + runs))
  {
    hide *;
    var n := |runs| - 1;
    forall r | r in s + runs[..n] && runs[n].dealt.Some? && r.dealt == runs[n].dealt ensures r.agent != runs[n].agent {
      NotDealtYet(s, runs, k, r);
    }
    OnceNext(s + runs[..n], runs[n]);
    assert s + runs == s + runs[..n] + [runs[n]];
  }

  lemma {:induction false} OnceAppend(s: seq<Run>, runs: seq<Run>, k: nat)
    requires AllBelow(s, k) && AllOf(runs, k) && DealsApart(runs) && DealtOnce(multiset(s))
    ensures DealtOnce(multiset(s + runs))
  {
    if runs == [] {
      assert s + runs == s;
    } else {
      assert AllOf(runs[..|runs| - 1], k) && DealsApart(runs[..|runs| - 1]);
      hide *;
      OnceAppend(s, runs[..|runs| - 1], k);
      OneMore(s, runs, k);
    }
  }

  lemma BelowNext(s: seq<Run>, runs: seq<Run>, n: nat)
    requires AllBelow(s, n) && AllOf(runs, n)
    ensures AllBelow(s + runs, n + 1)
  {
  }

  lemma NothingDealt()
    ensures DealtOnce(multiset([])) && AllBelow([], 0)
  {
  }

  lemma {:induction false} AllDealtOnce(agents: seq<Agent>, luck: Luck, days: seq<int>, n: nat)
    requires n <= |agents| && FairDecks(agents, luck)
    requires forall k: nat :: k < n ==> !Overdrawn(agents, luck.draw, days, k)
    ensures DealtOnce(multiset(AllRuns(agents, luck, days, n)))
    ensures AllBelow(AllRuns(agents, luck, days, n), n)
  {
    hide Overdrawn, AgentRuns, FairDecks, DealtOnce, AllBelow, AllOf, DealsApart, Due;
    if n == 0 {
      NothingDealt();
    } else {
      AllDealtOnce(agents, luck, days, n - 1);
      AgentDealtOnce(agents, luck, days, n - 1);
      AgentRunsAre(agents, luck, days, n - 1);
      OnceAppend(AllRuns(agents, luck, days, n - 1), AgentRuns(agents, luck, days, n - 1), n - 1);
      BelowNext(AllRuns(agents, luck, days, n - 1), AgentRuns(agents, luck, days, n - 1), n - 1);
    }
  }

  function Moments(runs: seq<Run>): seq<int> {
    seq(|runs|, j requires 0 <= j < |runs| => runs[j].at)
  }

  lemma EarlierCompares()
    ensures TotalPreorder(Earlier)
  {
  }

  lemma RunsAtMoments(times: seq<int>, id: string, k: nat, deck: seq<nat>)
    ensures Moments(RunsAt(times, id, k, deck)) == times
  {
  }

  /** An agent with a pool runs at its slots, earliest first, the j-th with the j-th case dealt. */
  lemma AgentRunsAtItsSlots(agents: seq<Agent>, luck: Luck, days: seq<int>, k: nat)
    requires k < |agents| && agents[k].cases > 0
    ensures var runs, times := AgentRuns(agents, luck, days, k), TimesOf(agents, luck, days, agents[k].id);
            && multiset(Moments(runs)) == multiset(times) && Sorted(Earlier, Moments(runs))
            && (forall j :: 0 <= j < |runs| ==> runs[j].id == agents[k].id && runs[j].agent == k)
            && forall j :: 0 <= j < |runs| && j < |luck.deck(k)| ==> runs[j].dealt == Some(luck.deck(k)[j])
  {
    var times := TimesOf(agents, luck, days, agents[k].id);
    EarlierCompares();
    SortSorts(Earlier, times);
    hide TimesOf, Sort, Moments, TotalPreorder, Sorted;
    RunsAtMoments(Sort(Earlier, times), agents[k].id, k, luck.deck(k));
  }

  /** Without a pool it runs once, at the last of its slots, if it has any. */
  lemma AgentRunsOnce(agents: seq<Agent>, luck: Luck, days: seq<int>, k: nat)
    requires k < |agents| && agents[k].cases == 0
    ensures var runs, times := AgentRuns(agents, luck, days, k), TimesOf(agents, luck, days, agents[k].id);
            if times == [] then runs == []
            else
              && |runs| == 1 && runs[0] == Run(runs[0].at, agents[k].id, k, None)
              && runs[0].at in times && forall t :: t in times ==> t <= runs[0].at
  {
    var times := TimesOf(agents, luck, days, agents[k].id);
    var sorted := Sort(Earlier, times);
    EarlierCompares();
    SortSorts(Earlier, times);
    hide TimesOf, Sort, TotalPreorder;
    if times != [] {
      LastIsLatest(sorted);
      SameElements(times, sorted);
      assert LastN(sorted, 1) == [sorted[|sorted| - 1]];
    }
  }

  lemma SameElements<T>(a: seq<T>, b: seq<T>)
    requires multiset(a) == multiset(b)
    ensures forall x :: x in a <==> x in b
  {
    forall x ensures x in a <==> x in b {
      assert x in a <==> x in multiset(a);
      assert x in b <==> x in multiset(b);
    }
  }

  lemma LastIsLatest(times: seq<int>)
    requires times != [] && Sorted(Earlier, times)
    ensures times[|times| - 1] in times && forall t :: t in times ==> t <= times[|times| - 1]
  {
  }

  /** One of the draws for the id on one of the days. */
  ghost predicate IsDraw(agents: seq<Agent>, luck: Luck, day: int, id: string, n: nat, t: int)
    requires n <= |agents|
  {
    exists k: nat, j: nat :: k < n && agents[k].id == id && j < RunsOn(luck.draw, day, k) && t == luck.when(day, k, j)
  }

  lemma {:induction false} DrawnTimesAre(luck: Luck, day: int, k: nat, n: nat, t: int)
    ensures t in DrawnTimes(luck, day, k, n) <==> exists j: nat :: j < n && t == luck.when(day, k, j)
  {
    if n > 0 {
      DrawnTimesAre(luck, day, k, n - 1, t);
      assert t in DrawnTimes(luck, day, k, n)
             <==> t in DrawnTimes(luck, day, k, n - 1) || t == luck.when(day, k, n - 1);
    }
  }

  lemma {:induction false} DayTimesAre(agents: seq<Agent>, luck: Luck, day: int, id: string, n: nat, t: int)
    requires n <= |agents|
    ensures t in DayTimes(agents, luck, day, id, n) <==> IsDraw(agents, luck, day, id, n, t)
  {
    hide RunsOn, DrawnTimes;
    if n > 0 {
      DayTimesAre(agents, luck, day, id, n - 1, t);
      DrawnTimesAre(luck, day, n - 1, RunsOn(luck.draw, day, n - 1), t);
    }
  }

  /** The slots of an id are at the times drawn for its agents on the days of the plan, and at no other. */
  lemma {:induction false} SlotsAreDrawn(agents: seq<Agent>, luck: Luck, days: seq<int>, id: string, t: int)
    ensures t in TimesOf(agents, luck, days, id)
            <==> exists day :: day in days && IsDraw(agents, luck, day, id, |agents|, t)
  {
    hide IsDraw, DayTimes;
    if days != [] {
      var n := |days| - 1;
      SlotsAreDrawn(agents, luck, days[..n], id, t);
      DayTimesAre(agents, luck, days[n], id, |agents|, t);
      assert days == days[..n] + [days[n]];
    }
  }

  /** A plan that does not raise runs in order of time, gives each agent the runs its slots call for, and deals no case
      of a pool twice. */
  lemma PlanIsSound(agents: seq<Agent>, luck: Luck, business: seq<int>, runs: seq<Run>, k: nat)
    requires FairDecks(agents, luck) && PlannedAs(agents, luck, business, Planned(runs)) && k < |agents|
    ensures Sorted(RunLeq, runs) && multiset(runs) == multiset(AllRuns(agents, luck, business, |agents|))
    ensures RunsFor(runs, k) == Due(agents, luck.draw, business, k)
    ensures DealtOnce(multiset(runs))
  {
    hide Overdrawn, FairDecks, AllRuns, Due, DealtOnce, TotalPreorder, RunLeq, Sorted;
    var all := AllRuns(agents, luck, business, |agents|);
    RunsCompare();
    SortSorts(RunLeq, all);
    SortRunsFor(all, k);
    AllRunsFor(agents, luck, business, |agents|, k);
    AllDealtOnce(agents, luck, business, |agents|);
  }
}

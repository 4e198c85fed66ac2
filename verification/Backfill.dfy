/** How many runs agent_showcase/backfill.py can plan: which pools outlast every random schedule. */
module Backfill {
  import opened Wrappers

  // Dates are day numbers counted from a Monday; weights and rounding work in hundredths.
  datatype Agent = Agent(id: string, cases: nat)

  function Weekday(day: int): nat {
    day % 7
  }

  function IsBusiness(day: int): bool {
    Weekday(day) < 5
  }

  function Weight(day: int): nat {
    if IsBusiness(day) then [115, 100, 100, 95, 80][Weekday(day)] else 0
  }

  function Range(id: string): (r: (nat, nat))
    ensures r.0 <= r.1
  {
    match id
    case "b1-fraud-triage" => (1, 5)
    case "b2-kyc-onboarding" => (1, 4)
    case "b3-dispute-resolution" => (0, 3)
    case "b4-loan-prequalification" => (1, 4)
    case "b5-misfire-demo" => (0, 2)
    case "b6-bedrock-sanctions-review" => (0, 1)
    case _ => (1, 3)
  }

  /** Half to even. */
  function Round(hundredths: nat): nat {
    var q, r := hundredths / 100, hundredths % 100;
    if r < 50 || (r == 50 && q % 2 == 0) then q else q + 1
  }

  lemma RoundIsMonotone(a: nat, b: nat)
    requires a <= b
    ensures Round(a) <= Round(b)
  {
    assert a / 100 <= b / 100;
  }

  // ----- weekdays in a stretch of days

  function BusinessDays(start: int, n: nat): (r: seq<int>)
    ensures |r| == Weekdays(start, n)
    ensures forall d :: d in r ==> start <= d < start + n && IsBusiness(d)
  {
    if n == 0 then [] else BusinessDays(start, n - 1) + if IsBusiness(start + n - 1) then [start + n - 1] else []
  }

  function One(day: int): nat {
    if IsBusiness(day) then 1 else 0
  }

  function Weekdays(start: int, n: nat): nat {
    if n == 0 then 0 else Weekdays(start, n - 1) + One(start + n - 1)
  }

  function AtMostBusiness(n: nat): nat {
    5 * (n / 7) + if n % 7 < 5 then n % 7 else 5
  }

  lemma DaysLater(day: int, k: nat)
    requires k < 7
    ensures Weekday(day + k) == if Weekday(day) + k < 7 then Weekday(day) + k else Weekday(day) + k - 7
  {
  }

  lemma WeekSum(day: int)
    ensures One(day) + One(day + 1) + One(day + 2) + One(day + 3) + One(day + 4) + One(day + 5) + One(day + 6) == 5
  {
    DaysLater(day, 1);
    DaysLater(day, 2);
    DaysLater(day, 3);
    DaysLater(day, 4);
    DaysLater(day, 5);
    DaysLater(day, 6);
    hide Weekday;
  }

  lemma WeekHasFive(start: int, n: nat)
    ensures Weekdays(start, n + 7) == Weekdays(start, n) + 5
  {
    var d := start + n;
    WeekSum(d);
    hide One;
    assert Weekdays(start, n + 2) == Weekdays(start, n) + One(d) + One(d + 1);
    assert Weekdays(start, n + 4) == Weekdays(start, n + 2) + One(d + 2) + One(d + 3);
    assert Weekdays(start, n + 6) == Weekdays(start, n + 4) + One(d + 4) + One(d + 5);
  }

  lemma {:induction false} Fewer(start: int, n: nat)
    ensures Weekdays(start, n) <= n
  {
    if n > 0 {
      hide One;
      Fewer(start, n - 1);
      assert One(start + n - 1) <= 1 by {
        AtMostOne(start + n - 1);
      }
    }
  }

  lemma AtMostOne(day: int)
    ensures One(day) <= 1
  {
  }

  lemma {:induction false} Longer(start: int, n: nat, m: nat)
    requires n <= m
    ensures Weekdays(start, n) <= Weekdays(start, m)
    decreases m - n
  {
    if n < m {
      hide One;
      Longer(start, n + 1, m);
    }
  }

  /** Any n days in a row hold at most five weekdays a whole week and the rest of one more. */
  lemma {:induction false} FewWeekdays(start: int, n: nat)
    ensures Weekdays(start, n) <= AtMostBusiness(n)
  {
    hide One;
    if n >= 7 {
      WeekHasFive(start, n - 7);
      FewWeekdays(start, n - 7);
      hide Weekdays;
    } else {
      WeekHasFive(start, 0);
      assert Weekdays(start, 0) == 0;
      hide Weekdays;
      Fewer(start, n);
      Longer(start, n, 7);
    }
  }

  lemma {:induction false} FirstWeek(n: nat)
    requires n < 7
    ensures Weekdays(0, n) == AtMostBusiness(n)
  {
    if n > 0 {
      FirstWeek(n - 1);
    }
  }

  /** From a Monday it is exactly that many. */
  lemma {:induction false} MondayStretch(n: nat)
    ensures Weekdays(0, n) == AtMostBusiness(n)
  {
    hide One, Weekdays;
    if n >= 7 {
      WeekHasFive(0, n - 7);
      MondayStretch(n - 7);
    } else {
      FirstWeek(n);
    }
  }

  function Days(days: int): nat {
    if days < 0 then 0 else days
  }

  function Heaviest(id: string): nat {
    Round(Range(id).1 * 115)
  }

  function MaxRuns(id: string, days: int): nat {
    Heaviest(id) * (Weekdays(0, Days(days)) + 1)
  }

  // ----- the plan

  type Draws = (int, nat) -> nat

  /** randint: within the agent's range on every day. */
  ghost predicate Fair(agents: seq<Agent>, draw: Draws) {
    forall day, k: nat :: k < |agents| ==> Range(agents[k].id).0 <= draw(day, k) <= Range(agents[k].id).1
  }

  function RunsOn(draw: Draws, day: int, k: nat): nat {
    Round(draw(day, k) * Weight(day))
  }

  /** What the first k agents add to the slots of an id on one day. */
  function DaySlots(agents: seq<Agent>, draw: Draws, day: int, id: string, k: nat): nat
    requires k <= |agents|
  {
    if k == 0 then 0
    else DaySlots(agents, draw, day, id, k - 1) + if agents[k - 1].id == id then RunsOn(draw, day, k - 1) else 0
  }

  function Slots(agents: seq<Agent>, draw: Draws, days: seq<int>, id: string): nat {
    if days == [] then 0
    else Slots(agents, draw, days[..|days| - 1], id) + DaySlots(agents, draw, days[|days| - 1], id, |agents|)
  }

  function Times(agents: seq<Agent>, id: string): nat {
    if agents == [] then 0 else Times(agents[..|agents| - 1], id) + if agents[|agents| - 1].id == id then 1 else 0
  }

  lemma WeightBound(day: int)
    ensures Weight(day) <= 115
  {
  }

  lemma MulSteps(n: nat, a: nat, b: nat)
    requires a <= b
    ensures n * a <= n * b
    ensures n * (a + 1) == n * a + n && (n + 1) * a == n * a + a
  {
  }

  /** The runs of one agent whose every draw is at its top. */
  function TopRuns(high: nat, days: seq<int>): nat {
    if days == [] then 0 else TopRuns(high, days[..|days| - 1]) + TopOn(high, days[|days| - 1])
  }

  function TopOn(high: nat, day: int): nat {
    Round(high * Weight(day))
  }

  function High(id: string): nat {
    Range(id).1
  }

  function TopDraws(agents: seq<Agent>): Draws {
    (day: int, k: nat) => if k < |agents| then Range(agents[k].id).1 else 0
  }

  lemma RunsAtMostTop(agents: seq<Agent>, draw: Draws, day: int, k: nat)
    requires Fair(agents, draw) && k < |agents|
    ensures RunsOn(draw, day, k) <= TopOn(High(agents[k].id), day)
  {
    hide Range, Round, Weight;
    assert draw(day, k) <= Range(agents[k].id).1;
    MulSteps(Weight(day), draw(day, k), Range(agents[k].id).1);
    RoundIsMonotone(draw(day, k) * Weight(day), Range(agents[k].id).1 * Weight(day));
  }

  lemma TimesNext(agents: seq<Agent>, id: string, k: nat, per: nat)
    requires k < |agents|
    ensures Times(agents[..k + 1], id) * per == Times(agents[..k], id) * per + if agents[k].id == id then per else 0
  {
    Prefixes(agents, k);
    MulSteps(per, Times(agents[..k], id), Times(agents[..k], id));
  }

  lemma {:induction false} DayTop(agents: seq<Agent>, draw: Draws, day: int, id: string, k: nat)
    requires Fair(agents, draw) && k <= |agents|
    ensures DaySlots(agents, draw, day, id, k) <= Times(agents[..k], id) * TopOn(High(id), day)
  {
    if k > 0 {
      DayTop(agents, draw, day, id, k - 1);
      RunsAtMostTop(agents, draw, day, k - 1);
      TimesNext(agents, id, k - 1, TopOn(High(id), day));
      hide RunsOn, TopOn, Fair, Times;
    }
  }

  lemma {:induction false} DayAtTop(agents: seq<Agent>, day: int, id: string, k: nat)
    requires k <= |agents|
    ensures DaySlots(agents, TopDraws(agents), day, id, k) == Times(agents[..k], id) * TopOn(High(id), day)
  {
    if k > 0 {
      DayAtTop(agents, day, id, k - 1);
      assert RunsOn(TopDraws(agents), day, k - 1) == TopOn(High(agents[k - 1].id), day);
      TimesNext(agents, id, k - 1, TopOn(High(id), day));
      hide RunsOn, TopOn, TopDraws, Times;
    }
  }

  lemma {:induction false} SlotsTop(agents: seq<Agent>, draw: Draws, days: seq<int>, id: string)
    requires Fair(agents, draw)
    ensures Slots(agents, draw, days, id) <= Times(agents, id) * TopRuns(High(id), days)
    ensures draw == TopDraws(agents) ==> Slots(agents, draw, days, id) == Times(agents, id) * TopRuns(High(id), days)
  {
    hide TopOn, Times, DaySlots, Fair, TopDraws;
    if days != [] {
      var front, day := days[..|days| - 1], days[|days| - 1];
      SlotsTop(agents, draw, front, id);
      DayTop(agents, draw, day, id, |agents|);
      DayAtTop(agents, day, id, |agents|);
      assert agents[..|agents|] == agents;
      Spread(Times(agents, id), TopRuns(High(id), front), TopOn(High(id), day));
    }
  }

  lemma Spread(t: nat, a: nat, b: nat)
    ensures t * (a + b) == t * a + t * b
  {
  }

  lemma TopIsFair(agents: seq<Agent>)
    ensures Fair(agents, TopDraws(agents))
  {
    hide Range;
  }

  lemma TopAtMost(id: string, day: int)
    ensures TopOn(High(id), day) <= Heaviest(id)
  {
    hide Range, Round, Weight;
    WeightBound(day);
    MulSteps(High(id), Weight(day), 115);
    RoundIsMonotone(High(id) * Weight(day), High(id) * 115);
  }

  lemma {:induction false} TopRunsAtMost(id: string, days: seq<int>)
    ensures TopRuns(High(id), days) <= Heaviest(id) * |days|
  {
    if days != [] {
      TopRunsAtMost(id, days[..|days| - 1]);
      TopAtMost(id, days[|days| - 1]);
      hide High, Heaviest, TopOn;
      MulSteps(Heaviest(id), |days| - 1, |days| - 1);
    }
  }

  /** The slots of an id stay within its max_runs for every draw, per agent of that id, with a business day to spare. */
  lemma SlotsBound(agents: seq<Agent>, draw: Draws, days: int, today: int, id: string)
    requires Fair(agents, draw)
    ensures Slots(agents, draw, BusinessDays(today - Days(days), Days(days)), id) + Times(agents, id) * Heaviest(id)
            <= Times(agents, id) * MaxRuns(id, days)
  {
    hide Slots, Heaviest, Times, TopRuns, Weekdays, AtMostBusiness, Fair, High;
    var n := Days(days);
    var business := BusinessDays(today - n, n);
    SlotsTop(agents, draw, business, id);
    TopRunsAtMost(id, business);
    MulSteps(Times(agents, id), TopRuns(High(id), business), Heaviest(id) * |business|);
    FewWeekdays(today - n, n);
    MondayStretch(n);
    Scale(Times(agents, id), Heaviest(id), Weekdays(today - n, n), Weekdays(0, n));
  }

  lemma Scale(t: nat, h: nat, w: nat, m: nat)
    requires w <= m
    ensures t * (h * w) + t * h <= t * (h * (m + 1))
  {
    MulSteps(t * h, w, m);
    assert t * (h * w) == t * h * w && t * (h * (m + 1)) == t * h * (m + 1);
  }

  ghost predicate Overdrawn(agents: seq<Agent>, draw: Draws, days: seq<int>, k: nat)
    requires k < |agents|
  {
    agents[k].cases > 0 && Slots(agents, draw, days, agents[k].id) > agents[k].cases
  }

  ghost predicate AnyOverdrawn(agents: seq<Agent>, draw: Draws, days: seq<int>) {
    exists k: nat :: k < |agents| && Overdrawn(agents, draw, days, k)
  }

  /** With one agent an id and pools of max_runs cases, no schedule runs out. */
  lemma PoolsSuffice(agents: seq<Agent>, draw: Draws, days: int, today: int)
    requires Fair(agents, draw)
    requires forall k :: 0 <= k < |agents| ==> Times(agents, agents[k].id) <= 1
    requires forall k :: 0 <= k < |agents| ==> agents[k].cases == 0 || agents[k].cases >= MaxRuns(agents[k].id, days)
    ensures !AnyOverdrawn(agents, draw, BusinessDays(today - Days(days), Days(days)))
  {
    hide Slots, Heaviest, MaxRuns, BusinessDays, Times, Fair;
    var business := BusinessDays(today - Days(days), Days(days));
    forall k: nat | k < |agents| ensures !Overdrawn(agents, draw, business, k) {
      SlotsBound(agents, draw, days, today, agents[k].id);
      AtMostOnce(Times(agents, agents[k].id), MaxRuns(agents[k].id, days));
    }
  }

  lemma AtMostOnce(t: nat, m: nat)
    requires t <= 1
    ensures t * m <= m
  {
  }

  // ----- the exact condition on the pools

  lemma SameDay(high: nat, start: int, n: nat)
    ensures IsBusiness(start + n) == IsBusiness(Weekday(start) + n)
            && TopOn(high, start + n) == TopOn(high, Weekday(start) + n)
  {
    hide Round, Range;
    WeekdayLater(start, n);
    hide Weekday;
    assert Weight(start + n) == Weight(Weekday(start) + n);
  }

  lemma WeekdayLater(start: int, n: nat)
    ensures Weekday(start + n) == Weekday(Weekday(start) + n)
  {
  }

  /** Only the weekday the stretch starts on matters. */
  lemma {:induction false} TopRunsByWeekday(high: nat, start: int, n: nat)
    ensures TopRuns(high, BusinessDays(start, n)) == TopRuns(high, BusinessDays(Weekday(start), n))
  {
    hide *;
    if n > 0 {
      TopRunsByWeekday(high, start, n - 1);
      SameDay(high, start, n - 1);
      TopRunsNext(high, start, n - 1);
      TopRunsNext(high, Weekday(start), n - 1);
    } else {
      NoDays(high, start);
      NoDays(high, Weekday(start));
    }
  }

  lemma NoDays(high: nat, start: int)
    ensures TopRuns(high, BusinessDays(start, 0)) == 0
  {
  }

  lemma TopRunsNext(high: nat, start: int, n: nat)
    ensures TopRuns(high, BusinessDays(start, n + 1))
            == TopRuns(high, BusinessDays(start, n)) + if IsBusiness(start + n) then TopOn(high, start + n) else 0
  {
    hide IsBusiness, TopOn;
    if IsBusiness(start + n) {
      Init(BusinessDays(start, n), start + n);
    } else {
      assert BusinessDays(start, n + 1) == BusinessDays(start, n);
    }
  }

  /** A pool holds the most its id's agents can be given, whatever the weekday the plan starts on. */
  predicate PoolHolds(agents: seq<Agent>, days: int, k: nat, weekday: nat)
    requires k < |agents|
  {
    agents[k].cases > 0 ==> Times(agents, agents[k].id) * TopRuns(High(agents[k].id),
        BusinessDays(weekday, Days(days))) <= agents[k].cases
  }

  predicate PoolsHold(agents: seq<Agent>, days: int) {
    forall k: nat, weekday: nat :: k < |agents| && weekday < 7 ==> PoolHolds(agents, days, k, weekday)
  }

  /** Some fair draw and some date make the plan raise. */
  ghost predicate CanOverrun(agents: seq<Agent>, days: int) {
    exists draw: Draws, today: int :: Overruns(agents, days, draw, today)
  }

  ghost predicate Overruns(agents: seq<Agent>, days: int, draw: Draws, today: int) {
    Fair(agents, draw) && AnyOverdrawn(agents, draw, BusinessDays(today - Days(days), Days(days)))
  }

  lemma HoldsMeansNoOverrun(agents: seq<Agent>, days: int, draw: Draws, today: int)
    requires PoolsHold(agents, days) && Fair(agents, draw)
    ensures !AnyOverdrawn(agents, draw, BusinessDays(today - Days(days), Days(days)))
  {
    hide Slots, Fair, BusinessDays, TopRuns, Times;
    var start := today - Days(days);
    var business := BusinessDays(start, Days(days));
    forall k: nat | k < |agents| ensures !Overdrawn(agents, draw, business, k) {
      SlotsTop(agents, draw, business, agents[k].id);
      TopRunsByWeekday(High(agents[k].id), start, Days(days));
      assert PoolHolds(agents, days, k, Weekday(start));
    }
  }

  lemma TopOverruns(agents: seq<Agent>, days: int, k: nat, weekday: nat)
    requires k < |agents| && weekday < 7 && !PoolHolds(agents, days, k, weekday)
    ensures Overruns(agents, days, TopDraws(agents), weekday + Days(days))
  {
    hide Slots, Fair, BusinessDays, TopRuns, Times, TopDraws;
    TopIsFair(agents);
    SlotsTop(agents, TopDraws(agents), BusinessDays(weekday, Days(days)), agents[k].id);
    assert Overdrawn(agents, TopDraws(agents), BusinessDays(weekday, Days(days)), k);
  }

  /** No draw and no date can make the plan raise exactly when every pool holds its id's top schedule from every
      weekday. */
  lemma NeverRaisesIff(agents: seq<Agent>, days: int)
    ensures !CanOverrun(agents, days) <==> PoolsHold(agents, days)
  {
    hide AnyOverdrawn, Fair, PoolHolds;
    if PoolsHold(agents, days) {
      forall draw: Draws, today: int ensures !Overruns(agents, days, draw, today) {
        if Fair(agents, draw) {
          HoldsMeansNoOverrun(agents, days, draw, today);
        }
      }
    } else {
      var k: nat, weekday: nat :| k < |agents| && weekday < 7 && !PoolHolds(agents, days, k, weekday);
      TopOverruns(agents, days, k, weekday);
    }
  }

  /** Two agents of one id share its slots. Pools of max_runs then overrun on some draw for a week, and on none for a
      day. */
  lemma SharedId()
    ensures var a := Agent("b1-fraud-triage", MaxRuns("b1-fraud-triage", 7)); CanOverrun([a, a], 7)
    ensures var a := Agent("b1-fraud-triage", MaxRuns("b1-fraud-triage", 1)); !CanOverrun([a, a], 1)
  {
    var id := "b1-fraud-triage";
    assert High(id) == 5 && MaxRuns(id, 7) == Round(575) * (Weekdays(0, 7) + 1)
           && MaxRuns(id, 1) == Round(575) * (Weekdays(0, 1) + 1);
    MondayStretch(7);
    MondayStretch(1);
    hide MaxRuns, High, CanOverrun;
    WeekOverruns(id, MaxRuns(id, 7));
    DayHolds(id, MaxRuns(id, 1));
  }

  lemma WeekOverruns(id: string, cases: nat)
    requires High(id) == 5 && 0 < cases < 50
    ensures CanOverrun([Agent(id, cases), Agent(id, cases)], 7)
  {
    hide High, TopRuns, BusinessDays, CanOverrun;
    var agents := [Agent(id, cases), Agent(id, cases)];
    TimesTwo(Agent(id, cases));
    TopWeek(0);
    assert !PoolHolds(agents, 7, 0, 0);
    hide PoolHolds;
    NeverRaisesIff(agents, 7);
  }

  lemma DayHolds(id: string, cases: nat)
    requires High(id) == 5 && cases >= 12
    ensures !CanOverrun([Agent(id, cases), Agent(id, cases)], 1)
  {
    hide High, TopRuns, BusinessDays, CanOverrun;
    var agents := [Agent(id, cases), Agent(id, cases)];
    TimesTwo(Agent(id, cases));
    forall k: nat, weekday: nat | k < |agents| && weekday < 7 ensures PoolHolds(agents, 1, k, weekday) {
      TopDay(weekday);
      assert agents[k] == Agent(id, cases);
    }
    hide PoolHolds;
    NeverRaisesIff(agents, 1);
  }

  lemma TimesTwo(a: Agent)
    ensures Times([a, a], a.id) == 2
  {
    assert [a, a][..1] == [a] && [a][..0] == [];
    assert Times([a], a.id) == 1;
  }

  lemma TopDay(weekday: nat)
    ensures TopRuns(5, BusinessDays(weekday, 1)) <= 6
  {
    WeightBound(weekday);
    RoundIsMonotone(5 * Weight(weekday), 5 * 115);
    NoDays(5, weekday);
    TopRunsNext(5, weekday, 0);
  }

  lemma MondayIsTop(start: int)
    requires start == 0
    ensures TopOn(5, start) == 6 && TopOn(5, start + 1) == 5 && TopOn(5, start + 2) == 5
    ensures TopOn(5, start + 3) == 5 && TopOn(5, start + 4) == 4
    ensures IsBusiness(start) && IsBusiness(start + 1) && IsBusiness(start + 2) && IsBusiness(start + 3)
    ensures IsBusiness(start + 4) && !IsBusiness(start + 5) && !IsBusiness(start + 6)
  {
  }

  lemma TopWeek(start: int)
    requires start == 0
    ensures TopRuns(5, BusinessDays(start, 7)) == 25
  {
    hide *;
    MondayIsTop(start);
    NoDays(5, start);
    TopRunsNext(5, start, 0);
    TopRunsNext(5, start, 1);
    TopRunsNext(5, start, 2);
    TopRunsNext(5, start, 3);
    TopRunsNext(5, start, 4);
    TopRunsNext(5, start, 5);
    TopRunsNext(5, start, 6);
  }

  /** The top of every agent's range on the heaviest weekday, and the days of a week with the one to spare. */
  lemma WeeksTop()
    ensures MaxRuns("b1-fraud-triage", 7) == 36 && MaxRuns("b2-kyc-onboarding", 7) == 30
    ensures MaxRuns("b3-dispute-resolution", 7) == 18 && MaxRuns("b4-loan-prequalification", 7) == 30
    ensures MaxRuns("b5-misfire-demo", 7) == 12 && MaxRuns("b6-bedrock-sanctions-review", 7) == 6
    ensures MaxRuns("anyone-else", 7) == 18
  {
    MondayStretch(7);
    hide Weekdays;
  }

  /** A hundred runs drawn come to the weight of the weekday, Monday first. */
  lemma WeekdayWeights(day: int)
    ensures TopOn(100, day) == match Weekday(day)
                               case 0 => 115 case 1 => 100 case 2 => 100 case 3 => 95 case 4 => 80 case _ => 0
  {
  }

  /** To the nearest, and to the even one of two that are equally near. */
  lemma RoundMeaning(hundredths: nat)
    ensures var r := Round(hundredths);
            && -50 <= 100 * r - hundredths <= 50
            && (100 * r - hundredths == 50 || hundredths - 100 * r == 50 ==> r % 2 == 0)
  {
  }
}

/**
 The first players of a day (apps/guess/src/game/daily-challenge-service.ts and
 publishDailyChallenge of apps/guess/src/game/curated-pool-repository.ts): any number of
 requests, interleaved at their await points, while the pool of eligible users changes.
 */
module DailyPublishing {
  import opened Distractors
  import opened RandomSource
  import opened RoundPlans

  type Date = int
  type Visitor = int

  datatype Challenge = Challenge(id: int, date: Date, rounds: seq<Round>)

  type Challenges = map<Date, Challenge>

  /** Idempotent by date. */
  function Published(challenges: Challenges, date: Date, rounds: seq<Round>, id: int): Challenges {
    if date in challenges then challenges else challenges[date := Challenge(id, date, rounds)]
  }

  /** How a day's plan is built from the pool; `DailyBuild` is the one in use. */
  type Builder = (Date, seq<User>) -> Plan

  ghost function PlanFor(build: Builder, date: Date, pool: seq<User>): Plan {
    build(date, pool)
  }

  ghost function DailyBuild(score: Score, random: Date -> Source, choiceOrder: (Date, int) -> Source): Builder
    requires forall date :: IsSource(random(date))
    requires forall date, order :: IsSource(choiceOrder(date, order))
  {
    (date: Date, pool: seq<User>) => BuildDailyPlan(score, pool, random(date), (order: int) => choiceOrder(date, order))
  }

  class CuratedPool {
    var challenges: Challenges

    constructor ()
      ensures challenges == map[]
    {
      challenges := map[];
    }

    method PublishDailyChallenge(date: Date, rounds: seq<Round>, id: int) returns (c: Challenge)
      modifies this
      ensures challenges == Published(old(challenges), date, rounds, id)
      ensures date in challenges && c == challenges[date]
    {
      if date in challenges {
        return challenges[date];
      }
      c := Challenge(id, date, rounds);
      challenges := challenges[date := c];
    }
  }

  // --------------------------------------------------------------------
  // Interleaved requests
  // --------------------------------------------------------------------

  datatype Phase = Arrived | Missed | Served(challenge: Challenge) | Refused(why: Plan)

  datatype Visit = Visit(date: Date, phase: Phase)

  datatype State = State(challenges: Challenges, visits: map<Visitor, Visit>)

  datatype Action =
    | Arrive(v: Visitor, date: Date)
    | Look(v: Visitor)
    | BuildAndPublish(v: Visitor, pool: seq<User>, id: int)     // the pool as it is at that moment

  predicate At(s: State, v: Visitor, phase: Phase) {
    v in s.visits && s.visits[v].phase == phase
  }

  predicate Enabled(s: State, act: Action) {
    match act
    case Arrive(v, _) => v !in s.visits
    case Look(v) => At(s, v, Arrived)
    case BuildAndPublish(v, _, _) => At(s, v, Missed)
  }

  function Moved(s: State, v: Visitor, phase: Phase): State
    requires v in s.visits
  {
    s.(visits := s.visits[v := s.visits[v].(phase := phase)])
  }

  ghost function Next(build: Builder, s: State, act: Action): State
    requires Enabled(s, act)
  {
    match act
    case Arrive(v, date) => s.(visits := s.visits[v := Visit(date, Arrived)])
    case Look(v) =>
      var date := s.visits[v].date;
      Moved(s, v, if date in s.challenges then Served(s.challenges[date]) else Missed)
    case BuildAndPublish(v, pool, id) =>
      var date := s.visits[v].date;
      var plan := PlanFor(build, date, pool);
      if plan.Rounds? then
        var after := Published(s.challenges, date, plan.rounds, id);
        Moved(s.(challenges := after), v, Served(after[date]))
      else Moved(s, v, Refused(plan))
  }

  const INIT := State(map[], map[])

  ghost predicate IsRun(build: Builder, run: seq<State>) {
    run != [] && run[0] == INIT && forall i | 0 <= i < |run| - 1 :: IsStep(build, run, i)
  }

  ghost predicate IsStep(build: Builder, run: seq<State>, i: int)
    requires 0 <= i < |run| - 1
  {
    exists act :: Enabled(run[i], act) && run[i + 1] == Next(build, run[i], act)
  }

  predicate ServedOk(challenges: Challenges, v: Visit) {
    v.phase.Served? ==> v.date in challenges && challenges[v.date] == v.phase.challenge
  }

  /** The rounds are the plan of the date for some pool. */
  ghost predicate IsPlanOf(build: Builder, date: Date, c: Challenge)
  {
    c.date == date && exists pool :: PlanFor(build, date, pool) == Rounds(c.rounds)
  }

  ghost predicate Inv(build: Builder, s: State)
  {
    && (forall v | v in s.visits :: ServedOk(s.challenges, s.visits[v]))
    && (forall date | date in s.challenges :: IsPlanOf(build, date, s.challenges[date]))
  }

  predicate Extends(c: Challenges, after: Challenges) {
    forall date | date in c :: date in after && after[date] == c[date]
  }

  lemma {:induction false} RunKeepsInv(build: Builder, run: seq<State>, i: nat)
    requires IsRun(build, run) && i < |run|
    ensures Inv(build, run[i])
  {
    if i > 0 {
      RunKeepsInv(build, run, i - 1);
      assert IsStep(build, run, i - 1);
      var act :| Enabled(run[i - 1], act) && run[i] == Next(build, run[i - 1], act);
    }
  }

  lemma {:induction false} PublishedStays(build: Builder, run: seq<State>, i: nat, j: nat)
    requires IsRun(build, run) && i <= j < |run|
    ensures Extends(run[i].challenges, run[j].challenges)
    decreases j
  {
    if i < j {
      PublishedStays(build, run, i, j - 1);
      RunKeepsInv(build, run, j - 1);
      assert IsStep(build, run, j - 1);
      var act :| Enabled(run[j - 1], act) && run[j] == Next(build, run[j - 1], act);
    }
  }

  /**
   However many requests race for a date, and however the pool changes meanwhile, all that are
   served, whenever they are, get one and the same challenge, which is a plan of that date.
   */
  lemma RacersGetOneChallenge(build: Builder, run: seq<State>, i: nat, j: nat, v: Visitor, w: Visitor)
    requires IsRun(build, run) && i <= j < |run|
    requires v in run[i].visits && run[i].visits[v].phase.Served?
    requires w in run[j].visits && run[j].visits[w].phase.Served?
    requires run[i].visits[v].date == run[j].visits[w].date
    ensures run[i].visits[v].phase.challenge == run[j].visits[w].phase.challenge
    ensures IsPlanOf(build, run[i].visits[v].date, run[i].visits[v].phase.challenge)
  {
    RunKeepsInv(build, run, i);
    RunKeepsInv(build, run, j);
    PublishedStays(build, run, i, j);
    assert ServedOk(run[i].challenges, run[i].visits[v]) && ServedOk(run[j].challenges, run[j].visits[w]);
  }

  /** With the builder in use: one challenge, and it is the daily plan of some pool with that date's seeds. */
  lemma DailyRacersGetOneChallenge(
      score: Score, random: Date -> Source, choiceOrder: (Date, int) -> Source,
      run: seq<State>, i: nat, j: nat, v: Visitor, w: Visitor) returns (pool: seq<User>)
    requires (forall date :: IsSource(random(date))) && (forall date, order :: IsSource(choiceOrder(date, order)))
    requires IsRun(DailyBuild(score, random, choiceOrder), run) && i <= j < |run|
    requires v in run[i].visits && run[i].visits[v].phase.Served?
    requires w in run[j].visits && run[j].visits[w].phase.Served?
    requires run[i].visits[v].date == run[j].visits[w].date
    ensures run[i].visits[v].phase.challenge == run[j].visits[w].phase.challenge
    ensures var date := run[i].visits[v].date;
      BuildDailyPlan(score, pool, random(date), (order: int) => choiceOrder(date, order))
      == Rounds(run[i].visits[v].phase.challenge.rounds)
  {
    var build := DailyBuild(score, random, choiceOrder);
    RacersGetOneChallenge(build, run, i, j, v, w);
    var date, c := run[i].visits[v].date, run[i].visits[v].phase.challenge;
    assert IsPlanOf(build, date, c);
    pool :| PlanFor(build, date, pool) == Rounds(c.rounds);
  }

  // --------------------------------------------------------------------
  // What each request is answered
  // --------------------------------------------------------------------

  /**
   A request that finds nothing published is served exactly when a plan can be built: with the challenge of its own
   plan if it is the first to publish, else with the one published meanwhile. Otherwise it is told why, and nothing changes.
   */
  lemma BuiltIsServed(build: Builder, s: State, v: Visitor, pool: seq<User>, id: int)
    requires Enabled(s, BuildAndPublish(v, pool, id))
    ensures var t := Next(build, s, BuildAndPublish(v, pool, id));
      var date, plan := s.visits[v].date, PlanFor(build, s.visits[v].date, pool);
      && (plan.Rounds? ==> date in t.challenges && t.visits[v] == Visit(date, Served(t.challenges[date])))
      && (plan.Rounds? && date !in s.challenges ==> t.challenges == s.challenges[date := Challenge(id, date, plan.rounds)])
      && (!plan.Rounds? || date in s.challenges ==> t.challenges == s.challenges)
      && (!plan.Rounds? ==> t.visits[v] == Visit(date, Refused(plan)))
  {
  }

  /** Every request is answered after at most two steps of its own. */
  lemma EveryoneIsAnswered(build: Builder, s: State, v: Visitor, pool: seq<User>, id: int)
    requires Enabled(s, Look(v))
    ensures var t := Next(build, s, Look(v));
      var date := s.visits[v].date;
      if date in s.challenges then t == s.(visits := s.visits[v := Visit(date, Served(s.challenges[date]))])
      else Enabled(t, BuildAndPublish(v, pool, id))
           && (var phase := Next(build, t, BuildAndPublish(v, pool, id)).visits[v].phase; phase.Served? || phase.Refused?)
  {
  }

  /** The challenge of a date is the plan of the first request of that date that could build one. */
  lemma {:induction false} FirstBuiltIsPublished(build: Builder, run: seq<State>, i: nat, date: Date)
    returns (k: nat, v: Visitor, pool: seq<User>, id: int)
    requires IsRun(build, run) && i < |run| && date in run[i].challenges
    ensures k < i && Enabled(run[k], BuildAndPublish(v, pool, id)) && run[k].visits[v].date == date
    ensures run[k + 1] == Next(build, run[k], BuildAndPublish(v, pool, id))
    ensures date !in run[k].challenges && PlanFor(build, date, pool).Rounds?
    ensures run[i].challenges[date] == Challenge(id, date, PlanFor(build, date, pool).rounds)
  {
    assert IsStep(build, run, i - 1);
    var act :| Enabled(run[i - 1], act) && run[i] == Next(build, run[i - 1], act);
    if date in run[i - 1].challenges {
      k, v, pool, id := FirstBuiltIsPublished(build, run, i - 1, date);
    } else {
      k, v, pool, id := i - 1, act.v, act.pool, act.id;
    }
  }
}

/**
 Building the rounds of a daily challenge and of a free-play game
 (apps/guess/src/game/daily-challenge.ts, apps/guess/src/game/freeplay.ts).

 The seeded streams of the daily challenge and the cryptographic one of free play are
 arbitrary sources; the daily seed's hash is outside the model.
 */
module RoundPlans {
  import opened Distractors
  import opened RandomSource
  import opened Sorting

  const CHOICES_PER_ROUND := 4
  const MAX_POSTS_PER_ROUND := 5
  const DAILY_ROUNDS := 5
  const FREEPLAY_ROUNDS := 10

  datatype Round = Round(order: int, target: UserId, postIds: seq<PostId>, choices: seq<UserId>)

  datatype Plan =
    | Rounds(rounds: seq<Round>)
    | InsufficientPool
    | InsufficientTargetPosts
    | InsufficientDistractors

  /** Daily rounds draw their choice order from a stream of their own, one per round. */
  datatype Kind = Daily(choiceOrder: int -> Source) | FreePlay

  ghost predicate KindOk(kind: Kind) {
    kind.Daily? ==> forall order :: IsSource(kind.choiceOrder(order))
  }

  function IdLess(): (User, User) -> bool {
    (a: User, b: User) => a.id < b.id
  }

  function Below(): (int, int) -> bool {
    (a: int, b: int) => a < b
  }

  function CanonicalOrder(pool: seq<User>): seq<User> {
    Sort(IdLess(), pool)
  }

  function Ascending(ids: seq<int>): seq<int> {
    Sort(Below(), ids)
  }

  // --------------------------------------------------------------------
  // One round
  // --------------------------------------------------------------------

  datatype Used = Used(any: set<UserId>, targets: set<UserId>, draws: int)

  datatype Step = Made(round: Round, used: Used) | Failed(why: Plan)

  ghost function Choices(kind: Kind, order: int, target: User, distractors: seq<User>, random: Source, at: int): seq<UserId>
    requires IsSource(random) && KindOk(kind)
  {
    var ids := [target.id] + Ids(distractors);
    if kind.Daily? then Picked(Ascending(ids), |ids|, kind.choiceOrder(order), 0)
    else Picked(ids, CHOICES_PER_ROUND, random, at)
  }

  function PostsInOrder(kind: Kind, target: User): seq<PostId> {
    if kind.Daily? then Ascending(target.postIds) else target.postIds
  }

  ghost function RoundOf(kind: Kind, target: User, order: int, users: seq<User>, used: Used, random: Source, at: int): Round
    requires IsSource(random) && KindOk(kind)
  {
    Round(order, target.id, Picked(PostsInOrder(kind, target), MAX_POSTS_PER_ROUND, random, used.draws),
          Choices(kind, order, target, users, random, at))
  }

  /** How a round is put together: from the target, its order, the distractors and what was used. */
  type Maker = (User, int, seq<User>, Used, int) -> Round

  ghost function MakerOf(kind: Kind, random: Source): Maker
    requires IsSource(random) && KindOk(kind)
  {
    (target: User, order: int, users: seq<User>, used: Used, at: int) => RoundOf(kind, target, order, users, used, random, at)
  }

  ghost function MadeBy(make: Maker, target: User, order: int, users: seq<User>, used: Used, at: int): Round {
    make(target, order, users, used, at)
  }

  /** The step made of a selection of distractors. */
  ghost function StepOf(kind: Kind, make: Maker, target: User, order: int, used: Used, s: Selection): Step {
    if |target.postIds| < MAX_POSTS_PER_ROUND then Failed(InsufficientTargetPosts)
    else
      match s
      case Insufficient => Failed(InsufficientDistractors)
      case Chosen(users, drawn) =>
        var at := used.draws + MAX_POSTS_PER_ROUND + drawn;
        Made(MadeBy(make, target, order, users, used, at),
             Used(used.any + {target.id} + Elements(Ids(users)), used.targets + {target.id},
                  if kind.Daily? then at else at + CHOICES_PER_ROUND))
  }

  function ModeOf(kind: Kind): Mode {
    if kind.Daily? then Deterministic else Random
  }

  ghost function Distracted(kind: Kind, score: Score, target: User, pool: seq<User>, used: Used, random: Source): Selection
    requires IsSource(random)
  {
    SelectWithFallback(
      score, target, pool, CHOICES_PER_ROUND - 1, used.any + {target.id}, used.targets + {target.id},
      ModeOf(kind), random, used.draws + MAX_POSTS_PER_ROUND)
  }

  /** How the next round is made: from its target, its order and what was used before. */
  type Planner = (User, int, Used) -> Step

  ghost function PlannerOf(kind: Kind, score: Score, pool: seq<User>, random: Source): Planner
    requires IsSource(random) && KindOk(kind)
  {
    (target: User, order: int, used: Used) =>
      StepOf(kind, MakerOf(kind, random), target, order, used, Distracted(kind, score, target, pool, used, random))
  }

  ghost function Planning(plan: Planner, target: User, order: int, used: Used): Step {
    plan(target, order, used)
  }

  predicate WellFormedRound(pool: seq<User>, target: User, order: int, r: Round) {
    && r.order == order && r.target == target.id
    && |r.postIds| == MAX_POSTS_PER_ROUND && multiset(r.postIds) <= multiset(target.postIds)
    && (Distinct(target.postIds) ==> Distinct(r.postIds))
    && |r.choices| == CHOICES_PER_ROUND && Distinct(r.choices) && target.id in r.choices
    && forall k | 0 <= k < |r.choices| :: HasId(pool, r.choices[k])
  }

  /** The choices are the target and the distractors, each once, in some order. */
  lemma ChoicesAreArranged(kind: Kind, order: int, target: User, distractors: seq<User>, random: Source, at: int)
    requires IsSource(random) && KindOk(kind)
    requires |distractors| == CHOICES_PER_ROUND - 1
    ensures multiset(Choices(kind, order, target, distractors, random, at)) == multiset([target.id] + Ids(distractors))
  {
    var ids := [target.id] + Ids(distractors);
    if kind.Daily? {
      PickedIsSample(Ascending(ids), |ids|, kind.choiceOrder(order), 0);
    } else {
      PickedIsSample(ids, CHOICES_PER_ROUND, random, at);
    }
  }

  lemma TargetAndDistractorsDiffer(target: User, distractors: seq<User>)
    requires DistinctIds(distractors) && forall k | 0 <= k < |distractors| :: distractors[k].id != target.id
    ensures Distinct([target.id] + Ids(distractors))
  {
    var ids := [target.id] + Ids(distractors);
    forall i, j | 0 <= i < j < |ids| ensures ids[i] != ids[j] {
      assert ids[j] == distractors[j - 1].id;
      if i > 0 {
        assert ids[i] == distractors[i - 1].id;
      }
    }
  }

  lemma ChoicesAreFour(
      kind: Kind, order: int, target: User, distractors: seq<User>, pool: seq<User>, random: Source, at: int)
    requires IsSource(random) && KindOk(kind) && target in pool
    requires SelectedFrom(target, pool, CHOICES_PER_ROUND - 1, {}, distractors)
    ensures var choices := Choices(kind, order, target, distractors, random, at);
      && |choices| == CHOICES_PER_ROUND && Distinct(choices) && target.id in choices
      && (forall k | 0 <= k < |choices| :: HasId(pool, choices[k]))
      && Elements(choices) == {target.id} + Elements(Ids(distractors))
  {
    var ids := [target.id] + Ids(distractors);
    var choices := Choices(kind, order, target, distractors, random, at);
    ChoicesAreArranged(kind, order, target, distractors, random, at);
    TargetAndDistractorsDiffer(target, distractors);
    SameElements(choices, ids);
    PartOfDistinct(choices, ids);
    assert ids[0] in choices;
    forall k | 0 <= k < |choices| ensures HasId(pool, choices[k]) {
      assert choices[k] in ids;
      var l :| 0 <= l < |ids| && ids[l] == choices[k];
      var u := if l == 0 then target else distractors[l - 1];
      var m :| 0 <= m < |pool| && pool[m] == u;
    }
    forall x ensures x in choices <==> x in {target.id} + Elements(Ids(distractors)) {
      if x in ids {
        var l :| 0 <= l < |ids| && ids[l] == x;
        assert l > 0 ==> Ids(distractors)[l - 1] == x;
      }
      if x in Elements(Ids(distractors)) {
        var l :| 0 <= l < |distractors| && Ids(distractors)[l] == x;
        assert ids[l + 1] == x;
      }
    }
  }

  /** The pool has three users other than the target. */
  ghost predicate HasRivals(target: User, pool: seq<User>) {
    Supply(target, pool, {}) >= CHOICES_PER_ROUND - 1
  }

  lemma PostsAreFive(kind: Kind, target: User, random: Source, at: int)
    requires IsSource(random) && |target.postIds| >= MAX_POSTS_PER_ROUND
    ensures var posts := Picked(PostsInOrder(kind, target), MAX_POSTS_PER_ROUND, random, at);
      && |posts| == MAX_POSTS_PER_ROUND && multiset(posts) <= multiset(target.postIds)
      && (Distinct(target.postIds) ==> Distinct(posts))
  {
    PickedSize(PostsInOrder(kind, target), MAX_POSTS_PER_ROUND, random, at);
    PickedIsSample(PostsInOrder(kind, target), MAX_POSTS_PER_ROUND, random, at);
    if Distinct(target.postIds) {
      PartOfDistinct(Picked(PostsInOrder(kind, target), MAX_POSTS_PER_ROUND, random, at), target.postIds);
    }
  }

  lemma RoundOfIsWellFormed(
      kind: Kind, target: User, order: int, users: seq<User>, pool: seq<User>, used: Used, random: Source, at: int)
    requires IsSource(random) && KindOk(kind) && target in pool && |target.postIds| >= MAX_POSTS_PER_ROUND
    requires SelectedFrom(target, pool, CHOICES_PER_ROUND - 1, {}, users)
    ensures WellFormedRound(pool, target, order, RoundOf(kind, target, order, users, used, random, at))
  {
    PostsAreFive(kind, target, random, used.draws);
    ChoicesAreFour(kind, order, target, users, pool, random, at);
  }

  /** The user can be given a round. */
  ghost predicate Playable(pool: seq<User>, target: User) {
    |target.postIds| >= MAX_POSTS_PER_ROUND && HasRivals(target, pool)
  }

  ghost predicate SoundStep(pool: seq<User>, target: User, order: int, step: Step) {
    && (step.Made? <==> Playable(pool, target))
    && (step.Made? ==> WellFormedRound(pool, target, order, step.round))
    && (step.Failed? ==> !step.why.Rounds?)
  }

  /** Every user that can be given a round is given a well-formed one. */
  ghost predicate PlansSoundly(plan: Planner, pool: seq<User>) {
    forall target, order, used :: SoundAt(plan, pool, target, order, used)
  }

  ghost predicate SoundAt(plan: Planner, pool: seq<User>, target: User, order: int, used: Used) {
    target in pool ==> SoundStep(pool, target, order, Planning(plan, target, order, used))
  }

  lemma PlanningIs(
      kind: Kind, score: Score, target: User, order: int, pool: seq<User>, used: Used, random: Source, s: Selection)
    requires IsSource(random) && KindOk(kind) && s == Distracted(kind, score, target, pool, used, random)
    ensures Planning(PlannerOf(kind, score, pool, random), target, order, used)
         == StepOf(kind, MakerOf(kind, random), target, order, used, s)
  {
  }

  /** A planned round is made of a selection that keeps the promises of the fallback tiers. */
  lemma Planned(kind: Kind, score: Score, pool: seq<User>, random: Source, target: User, order: int, used: Used)
    returns (s: Selection)
    requires IsSource(random) && KindOk(kind)
    ensures Planning(PlannerOf(kind, score, pool, random), target, order, used)
         == StepOf(kind, MakerOf(kind, random), target, order, used, s)
    ensures s.Chosen? <==> HasRivals(target, pool)
    ensures s.Chosen? ==> SelectedFrom(target, pool, CHOICES_PER_ROUND - 1, {}, s.users)
    ensures Supply(target, pool, used.any + {target.id}) >= CHOICES_PER_ROUND - 1 ==>
      s.Chosen? && SelectedFrom(target, pool, CHOICES_PER_ROUND - 1, used.any + {target.id}, s.users)
  {
    s := Drawn(kind, score, pool, random, target, used);
    PlanningIs(kind, score, target, order, pool, used, random, s);
  }

  lemma Drawn(kind: Kind, score: Score, pool: seq<User>, random: Source, target: User, used: Used) returns (s: Selection)
    requires IsSource(random)
    ensures s == Distracted(kind, score, target, pool, used, random)
    ensures s.Chosen? <==> HasRivals(target, pool)
    ensures s.Chosen? ==> SelectedFrom(target, pool, CHOICES_PER_ROUND - 1, {}, s.users)
    ensures Supply(target, pool, used.any + {target.id}) >= CHOICES_PER_ROUND - 1 ==>
      s.Chosen? && SelectedFrom(target, pool, CHOICES_PER_ROUND - 1, used.any + {target.id}, s.users)
  {
    s := FallbackTiers(
      score, target, pool, CHOICES_PER_ROUND - 1, used.any + {target.id}, used.targets + {target.id},
      ModeOf(kind), random, used.draws + MAX_POSTS_PER_ROUND);
  }

  lemma SelectionMakesSoundStep(
      kind: Kind, make: Maker, target: User, order: int, pool: seq<User>, used: Used, s: Selection)
    returns (step: Step)
    requires s.Chosen? <==> HasRivals(target, pool)
    requires s.Chosen? && |target.postIds| >= MAX_POSTS_PER_ROUND ==>
      WellFormedRound(pool, target, order, MadeBy(make, target, order, s.users, used, used.draws + MAX_POSTS_PER_ROUND + s.used))
    ensures step == StepOf(kind, make, target, order, used, s)
    ensures SoundStep(pool, target, order, step)
  {
    step := StepOf(kind, make, target, order, used, s);
  }

  lemma MadeIsWellFormed(
      kind: Kind, target: User, order: int, pool: seq<User>, used: Used, s: Selection, random: Source)
    requires IsSource(random) && KindOk(kind) && target in pool && |target.postIds| >= MAX_POSTS_PER_ROUND
    requires s.Chosen? && SelectedFrom(target, pool, CHOICES_PER_ROUND - 1, {}, s.users)
    ensures WellFormedRound(
      pool, target, order,
      MadeBy(MakerOf(kind, random), target, order, s.users, used, used.draws + MAX_POSTS_PER_ROUND + s.used))
  {
    RoundOfIsWellFormed(kind, target, order, s.users, pool, used, random, used.draws + MAX_POSTS_PER_ROUND + s.used);
  }

  lemma PlannerIsSound(kind: Kind, score: Score, pool: seq<User>, random: Source) returns (plan: Planner)
    requires IsSource(random) && KindOk(kind)
    ensures plan == PlannerOf(kind, score, pool, random) && PlansSoundly(plan, pool)
  {
    plan := PlannerOf(kind, score, pool, random);
    forall target, order, used ensures SoundAt(plan, pool, target, order, used) {
      if target in pool {
        var s := Planned(kind, score, pool, random, target, order, used);
        if s.Chosen? && |target.postIds| >= MAX_POSTS_PER_ROUND {
          MadeIsWellFormed(kind, target, order, pool, used, s, random);
        }
        var step := SelectionMakesSoundStep(kind, MakerOf(kind, random), target, order, pool, used, s);
      }
    }
  }

  // --------------------------------------------------------------------
  // All rounds
  // --------------------------------------------------------------------

  /** The rounds from i on; round k is about turns[k]. */
  ghost function RoundsFrom(planner: Planner, turns: seq<User>, i: int, used: Used): Plan
    requires 0 <= i <= |turns|
    decreases |turns| - i
  {
    if i == |turns| then Rounds([])
    else
      match Planning(planner, turns[i], i + 1, used)
      case Failed(why) => why
      case Made(round, after) =>
        var rest := RoundsFrom(planner, turns, i + 1, after);
        if rest.Rounds? then Rounds([round] + rest.rounds) else rest
  }

  ghost function DailyTurns(canonical: seq<User>, random: Source): seq<User>
    requires IsSource(random)
  {
    Picked(canonical, DAILY_ROUNDS, random, 0)
  }

  /** Round-robin over one shuffle of the pool. */
  ghost function FreePlayTurns(canonical: seq<User>, random: Source): seq<User>
    requires IsSource(random) && canonical != []
  {
    PickedSize(canonical, |canonical|, random, 0);
    var shuffled := Picked(canonical, |canonical|, random, 0);
    seq(FREEPLAY_ROUNDS, i requires 0 <= i < FREEPLAY_ROUNDS => shuffled[i % |shuffled|])
  }

  ghost function BuildDailyPlan(score: Score, pool: seq<User>, random: Source, choiceOrder: int -> Source): Plan
    requires IsSource(random) && KindOk(Daily(choiceOrder))
  {
    if |pool| < DAILY_ROUNDS then InsufficientPool
    else
      var canonical := CanonicalOrder(pool);
      var kind := Daily(choiceOrder);
      RoundsFrom(PlannerOf(kind, score, canonical, random), DailyTurns(canonical, random), 0, Used({}, {}, DAILY_ROUNDS))
  }

  ghost function BuildFreePlayPlan(score: Score, pool: seq<User>, random: Source): Plan
    requires IsSource(random)
  {
    if |pool| == 0 then InsufficientPool
    else
      var canonical := CanonicalOrder(pool);
      RoundsFrom(PlannerOf(FreePlay, score, canonical, random), FreePlayTurns(canonical, random), 0,
                 Used({}, {}, |canonical|))
  }

  predicate WellFormedRounds(pool: seq<User>, turns: seq<User>, i: int, rounds: seq<Round>)
    requires 0 <= i <= |turns|
  {
    && |rounds| == |turns| - i
    && forall k | 0 <= k < |rounds| :: WellFormedRound(pool, turns[i + k], i + k + 1, rounds[k])
  }

  lemma OneMoreRound(pool: seq<User>, turns: seq<User>, i: int, r: Round, rest: seq<Round>)
    requires 0 <= i < |turns| && WellFormedRound(pool, turns[i], i + 1, r) && WellFormedRounds(pool, turns, i + 1, rest)
    ensures WellFormedRounds(pool, turns, i, [r] + rest)
  {
    var rounds := [r] + rest;
    forall k | 0 <= k < |rounds| ensures WellFormedRound(pool, turns[i + k], i + k + 1, rounds[k]) {
      if k > 0 {
        assert WellFormedRound(pool, turns[i + 1 + (k - 1)], i + 1 + (k - 1) + 1, rest[k - 1]);
      }
    }
  }

  ghost predicate AllPlayable(pool: seq<User>, turns: seq<User>, i: int) {
    forall k | 0 <= i <= k < |turns| :: Playable(pool, turns[k])
  }

  lemma AllPlayableStep(pool: seq<User>, turns: seq<User>, i: int)
    requires 0 <= i < |turns|
    ensures AllPlayable(pool, turns, i) <==> Playable(pool, turns[i]) && AllPlayable(pool, turns, i + 1)
  {
  }

  /** All rounds are well formed; planning fails exactly when some target cannot be given a round. */
  lemma {:induction false} RoundsAreWellFormed(planner: Planner, turns: seq<User>, i: int, pool: seq<User>, used: Used)
    returns (plan: Plan)
    requires 0 <= i <= |turns| && PlansSoundly(planner, pool)
    requires forall k | 0 <= k < |turns| :: turns[k] in pool
    ensures plan == RoundsFrom(planner, turns, i, used)
    ensures plan.Rounds? <==> AllPlayable(pool, turns, i)
    ensures plan.Rounds? ==> WellFormedRounds(pool, turns, i, plan.rounds)
    decreases |turns| - i
  {
    plan := RoundsFrom(planner, turns, i, used);
    if i < |turns| {
      var step := Planning(planner, turns[i], i + 1, used);
      assert SoundAt(planner, pool, turns[i], i + 1, used);
      AllPlayableStep(pool, turns, i);
      if step.Made? {
        var rest := RoundsAreWellFormed(planner, turns, i + 1, pool, step.used);
        if rest.Rounds? {
          OneMoreRound(pool, turns, i, step.round, rest.rounds);
        }
      }
    }
  }

  // --------------------------------------------------------------------
  // Whole plans
  // --------------------------------------------------------------------

  lemma PartHasDistinctIds(part: seq<User>, whole: seq<User>)
    requires multiset(part) <= multiset(whole) && DistinctIds(whole)
    ensures DistinctIds(part) && forall k | 0 <= k < |part| :: part[k] in whole
  {
    forall i, j | 0 <= i < j < |whole| ensures whole[i] != whole[j] {
      assert whole[i].id != whole[j].id;
    }
    PartOfDistinct(part, whole);
    forall i, j | 0 <= i < j < |part| ensures part[i].id != part[j].id {
      assert part[i] in whole && part[j] in whole && part[i] != part[j];
      var k :| 0 <= k < |whole| && whole[k] == part[i];
      var l :| 0 <= l < |whole| && whole[l] == part[j];
      assert k != l;
    }
  }

  lemma PartIsIn(part: seq<User>, whole: seq<User>)
    requires multiset(part) <= multiset(whole)
    ensures forall k | 0 <= k < |part| :: part[k] in whole
  {
    forall k | 0 <= k < |part| ensures part[k] in whole {
      assert part[k] in multiset(part);
      assert part[k] in multiset(whole);
    }
  }

  ghost function PoolIds(pool: seq<User>): set<UserId> {
    set u | u in pool :: u.id
  }

  lemma SizeWithout(s: set<UserId>, t: set<UserId>)
    ensures |s - t| >= |s| - |t|
  {
    assert s == (s - t) + (s * t);
    SmallerPart(s * t, t);
  }

  lemma SupplyLeft(target: User, pool: seq<User>, any: set<UserId>)
    ensures Supply(target, pool, any + {target.id}) >= |PoolIds(pool)| - |any| - 1
  {
    var exclude := any + {target.id};
    SupplyShrinks(target, pool, exclude);
    assert EligibleIds(target, pool, exclude) == PoolIds(pool) - exclude;
    SizeWithout(PoolIds(pool), exclude);
  }

  lemma DistinctIdsCount(pool: seq<User>)
    requires DistinctIds(pool)
    ensures |PoolIds(pool)| == |pool|
  {
    DistinctCounts(Ids(pool));
    forall id ensures id in PoolIds(pool) <==> id in Elements(Ids(pool)) {
      if id in PoolIds(pool) {
        var u :| u in pool && u.id == id;
        var k :| 0 <= k < |pool| && pool[k] == u;
        assert Ids(pool)[k] == id;
      }
    }
    assert PoolIds(pool) == Elements(Ids(pool));
  }

  lemma PoolOfFourSuffices(target: User, pool: seq<User>)
    requires DistinctIds(pool) && |pool| >= CHOICES_PER_ROUND
    ensures HasRivals(target, pool)
  {
    DistinctIdsCount(pool);
    SupplyShrinks(target, pool, {});
    assert EligibleIds(target, pool, {}) == PoolIds(pool) - {target.id};
    SizeWithout(PoolIds(pool), {target.id});
  }

  /** Sorting by id keeps the users and their different ids. */
  lemma CanonicalKeepsIds(pool: seq<User>)
    ensures DistinctIds(pool) ==> DistinctIds(CanonicalOrder(pool))
    ensures forall u :: u in CanonicalOrder(pool) <==> u in pool
  {
    SameElements(CanonicalOrder(pool), pool);
    if DistinctIds(pool) {
      PartHasDistinctIds(CanonicalOrder(pool), pool);
    }
  }

  predicate EnoughPosts(pool: seq<User>) {
    forall u | u in pool :: |u.postIds| >= MAX_POSTS_PER_ROUND
  }

  lemma DailyTurnsDiffer(canonical: seq<User>, random: Source)
    requires IsSource(random) && DistinctIds(canonical) && |canonical| >= DAILY_ROUNDS
    ensures var turns := DailyTurns(canonical, random);
      |turns| == DAILY_ROUNDS && DistinctIds(turns) && forall k | 0 <= k < |turns| :: turns[k] in canonical
  {
    PickedSize(canonical, DAILY_ROUNDS, random, 0);
    PickedIsSample(canonical, DAILY_ROUNDS, random, 0);
    PartHasDistinctIds(DailyTurns(canonical, random), canonical);
  }

  lemma TurnsAreFromPool(canonical: seq<User>, random: Source)
    requires IsSource(random) && canonical != []
    ensures forall k | 0 <= k < FREEPLAY_ROUNDS :: FreePlayTurns(canonical, random)[k] in canonical
  {
    PickedSize(canonical, |canonical|, random, 0);
    PickedIsSample(canonical, |canonical|, random, 0);
    PartIsIn(Picked(canonical, |canonical|, random, 0), canonical);
  }

  lemma EveryoneIsPlayable(pool: seq<User>, canonical: seq<User>, turns: seq<User>)
    requires EnoughPosts(pool) && forall u :: u in canonical <==> u in pool
    requires DistinctIds(canonical) && |canonical| >= CHOICES_PER_ROUND
    requires forall k | 0 <= k < |turns| :: turns[k] in canonical
    ensures AllPlayable(canonical, turns, 0)
  {
    forall k | 0 <= k < |turns| ensures Playable(canonical, turns[k]) {
      PoolOfFourSuffices(turns[k], canonical);
    }
  }

  /**
   A daily challenge on at least five different users with enough posts is always built, for any
   seed: five well-formed rounds about five different users.
   */
  lemma DailyPlanIsBuilt(score: Score, pool: seq<User>, random: Source, choiceOrder: int -> Source) returns (plan: Plan)
    requires IsSource(random) && KindOk(Daily(choiceOrder))
    requires DistinctIds(pool) && |pool| >= DAILY_ROUNDS && EnoughPosts(pool)
    ensures plan == BuildDailyPlan(score, pool, random, choiceOrder) && plan.Rounds?
    ensures var turns := DailyTurns(CanonicalOrder(pool), random);
      && |turns| == DAILY_ROUNDS && DistinctIds(turns)
      && WellFormedRounds(CanonicalOrder(pool), turns, 0, plan.rounds)
  {
    var canonical, kind := CanonicalOrder(pool), Daily(choiceOrder);
    CanonicalKeepsIds(pool);
    var turns := DailyTurns(canonical, random);
    DailyTurnsDiffer(canonical, random);
    EveryoneIsPlayable(pool, canonical, turns);
    var planner := PlannerIsSound(kind, score, canonical, random);
    plan := RoundsAreWellFormed(planner, turns, 0, canonical, Used({}, {}, DAILY_ROUNDS));
  }

  /** Free play on at least four different users with enough posts is always built, for any source. */
  lemma FreePlayPlanIsBuilt(score: Score, pool: seq<User>, random: Source) returns (plan: Plan)
    requires IsSource(random)
    requires DistinctIds(pool) && |pool| >= CHOICES_PER_ROUND && EnoughPosts(pool)
    ensures plan == BuildFreePlayPlan(score, pool, random) && plan.Rounds?
    ensures WellFormedRounds(CanonicalOrder(pool), FreePlayTurns(CanonicalOrder(pool), random), 0, plan.rounds)
  {
    var canonical := CanonicalOrder(pool);
    CanonicalKeepsIds(pool);
    var turns := FreePlayTurns(canonical, random);
    TurnsAreFromPool(canonical, random);
    EveryoneIsPlayable(pool, canonical, turns);
    var planner := PlannerIsSound(FreePlay, score, canonical, random);
    plan := RoundsAreWellFormed(planner, turns, 0, canonical, Used({}, {}, |canonical|));
  }

  // --------------------------------------------------------------------
  // No repeats
  // --------------------------------------------------------------------

  predicate FreshRound(r: Round, any: set<UserId>) {
    forall c | 0 <= c < |r.choices| :: r.choices[c] == r.target || r.choices[c] !in any
  }

  /** No distractor was used before: neither in `any` nor in an earlier one of these rounds. */
  ghost predicate AllFresh(rounds: seq<Round>, any: set<UserId>) {
    rounds == [] || (FreshRound(rounds[0], any) && AllFresh(rounds[1..], any + Elements(rounds[0].choices)))
  }

  lemma {:induction false} FreshMeansNew(rounds: seq<Round>, any: set<UserId>, l: int, k: int, id: UserId)
    requires AllFresh(rounds, any) && -1 <= l < k < |rounds|
    requires if l == -1 then id in any else id in rounds[l].choices
    requires id in rounds[k].choices
    ensures id == rounds[k].target
  {
    if k > 0 {
      FreshMeansNew(rounds[1..], any + Elements(rounds[0].choices), if l == -1 then -1 else l - 1, k - 1, id);
    }
  }

  lemma FewUsed(any: set<UserId>, id: UserId, users: seq<User>)
    requires |users| == CHOICES_PER_ROUND - 1
    ensures |any + {id} + Elements(Ids(users))| <= |any| + CHOICES_PER_ROUND
  {
    var a, b, c, d := id, users[0].id, users[1].id, users[2].id;
    forall x | x in Elements(Ids(users)) ensures x in {b, c, d} {
      var k :| 0 <= k < |users| && Ids(users)[k] == x;
    }
    SmallerPart(any + {id} + Elements(Ids(users)), any + {a} + {b} + {c} + {d});
  }

  lemma RoundIsFresh(
      kind: Kind, target: User, order: int, users: seq<User>, pool: seq<User>, used: Used, random: Source, at: int)
    requires IsSource(random) && KindOk(kind) && target in pool
    requires SelectedFrom(target, pool, CHOICES_PER_ROUND - 1, used.any + {target.id}, users)
    ensures var r := RoundOf(kind, target, order, users, used, random, at);
      FreshRound(r, used.any) && Elements(r.choices) == {target.id} + Elements(Ids(users))
  {
    ChoicesAreFour(kind, order, target, users, pool, random, at);
    var choices := Choices(kind, order, target, users, random, at);
    forall c | 0 <= c < |choices| ensures choices[c] == target.id || choices[c] !in used.any {
      assert choices[c] in Elements(choices);
      if choices[c] != target.id {
        var k :| 0 <= k < |users| && Ids(users)[k] == choices[c];
        assert users[k].id !in used.any + {target.id};
      }
    }
  }

  ghost predicate SparingStep(pool: seq<User>, used: Used, step: Step) {
    && (step.Made? && |PoolIds(pool)| >= |used.any| + CHOICES_PER_ROUND ==>
          && FreshRound(step.round, used.any)
          && step.used.any == used.any + Elements(step.round.choices)
          && |step.used.any| <= |used.any| + CHOICES_PER_ROUND)
    && (step.Failed? ==> !step.why.Rounds?)
  }

  /** While the pool lasts, no round reuses anyone as a distractor. */
  ghost predicate PlansSparingly(plan: Planner, pool: seq<User>) {
    forall target, order, used :: SparingAt(plan, pool, target, order, used)
  }

  ghost predicate SparingAt(plan: Planner, pool: seq<User>, target: User, order: int, used: Used) {
    target in pool ==> SparingStep(pool, used, Planning(plan, target, order, used))
  }

  /** The round reuses no one, and its choices are what it adds to the users used. */
  ghost predicate SparingRound(target: User, users: seq<User>, used: Used, r: Round) {
    FreshRound(r, used.any) && Elements(r.choices) == {target.id} + Elements(Ids(users))
  }

  lemma SelectionMakesSparingStep(
      kind: Kind, make: Maker, target: User, order: int, pool: seq<User>, used: Used, s: Selection)
    returns (step: Step)
    requires s.Chosen? && |PoolIds(pool)| >= |used.any| + CHOICES_PER_ROUND ==>
      && |s.users| == CHOICES_PER_ROUND - 1
      && SparingRound(target, s.users, used,
           MadeBy(make, target, order, s.users, used, used.draws + MAX_POSTS_PER_ROUND + s.used))
    ensures step == StepOf(kind, make, target, order, used, s)
    ensures SparingStep(pool, used, step)
  {
    step := StepOf(kind, make, target, order, used, s);
    if step.Made? && |PoolIds(pool)| >= |used.any| + CHOICES_PER_ROUND {
      FewUsed(used.any, target.id, s.users);
      UsedAfter(used.any, target.id, s.users, step.round.choices);
    }
  }

  lemma MadeIsSparing(
      kind: Kind, target: User, order: int, pool: seq<User>, used: Used, s: Selection, random: Source)
    requires IsSource(random) && KindOk(kind) && target in pool
    requires s.Chosen? && SelectedFrom(target, pool, CHOICES_PER_ROUND - 1, used.any + {target.id}, s.users)
    ensures SparingRound(
      target, s.users, used,
      MadeBy(MakerOf(kind, random), target, order, s.users, used, used.draws + MAX_POSTS_PER_ROUND + s.used))
  {
    RoundIsFresh(kind, target, order, s.users, pool, used, random, used.draws + MAX_POSTS_PER_ROUND + s.used);
  }

  lemma UsedAfter(any: set<UserId>, id: UserId, users: seq<User>, choices: seq<UserId>)
    requires Elements(choices) == {id} + Elements(Ids(users))
    ensures any + {id} + Elements(Ids(users)) == any + Elements(choices)
  {
  }

  lemma PlannerIsSparing(kind: Kind, score: Score, pool: seq<User>, random: Source) returns (plan: Planner)
    requires IsSource(random) && KindOk(kind)
    ensures plan == PlannerOf(kind, score, pool, random) && PlansSparingly(plan, pool)
  {
    plan := PlannerOf(kind, score, pool, random);
    forall target, order, used ensures SparingAt(plan, pool, target, order, used) {
      if target in pool {
        SupplyLeft(target, pool, used.any);
        var s := Planned(kind, score, pool, random, target, order, used);
        if s.Chosen? && |PoolIds(pool)| >= |used.any| + CHOICES_PER_ROUND {
          MadeIsSparing(kind, target, order, pool, used, s, random);
        }
        var step := SelectionMakesSparingStep(kind, MakerOf(kind, random), target, order, pool, used, s);
      }
    }
  }

  /** With four users for every round, no round has a distractor that was used in an earlier one. */
  lemma {:induction false} LargePoolsAvoidRepeats(planner: Planner, turns: seq<User>, i: int, pool: seq<User>, used: Used)
    returns (plan: Plan)
    requires 0 <= i <= |turns| && PlansSparingly(planner, pool)
    requires forall k | 0 <= k < |turns| :: turns[k] in pool
    requires |PoolIds(pool)| >= CHOICES_PER_ROUND * |turns| && |used.any| <= CHOICES_PER_ROUND * i
    ensures plan == RoundsFrom(planner, turns, i, used)
    ensures plan.Rounds? ==> AllFresh(plan.rounds, used.any)
    decreases |turns| - i
  {
    plan := RoundsFrom(planner, turns, i, used);
    if i < |turns| {
      var step := Planning(planner, turns[i], i + 1, used);
      assert SparingAt(planner, pool, turns[i], i + 1, used);
      if step.Made? {
        var rest := LargePoolsAvoidRepeats(planner, turns, i + 1, pool, step.used);
        if rest.Rounds? {
          assert ([step.round] + rest.rounds)[1..] == rest.rounds;
        }
      }
    }
  }

  /** A daily challenge on twenty different users repeats no one as a distractor. */
  lemma DailyAvoidsRepeats(
      score: Score, pool: seq<User>, random: Source, choiceOrder: int -> Source, l: int, k: int, id: UserId)
    requires IsSource(random) && KindOk(Daily(choiceOrder))
    requires DistinctIds(pool) && |pool| >= CHOICES_PER_ROUND * DAILY_ROUNDS && EnoughPosts(pool)
    requires 0 <= l < k < DAILY_ROUNDS
    ensures var plan := BuildDailyPlan(score, pool, random, choiceOrder);
      && plan.Rounds? && |plan.rounds| == DAILY_ROUNDS
      && (id in plan.rounds[l].choices && id in plan.rounds[k].choices ==> id == plan.rounds[k].target)
  {
    var canonical, kind := CanonicalOrder(pool), Daily(choiceOrder);
    var plan := DailyPlanIsBuilt(score, pool, random, choiceOrder);
    CanonicalKeepsIds(pool);
    DailyTurnsDiffer(canonical, random);
    DistinctIdsCount(canonical);
    var planner := PlannerIsSparing(kind, score, canonical, random);
    var same := LargePoolsAvoidRepeats(
      planner, DailyTurns(canonical, random), 0, canonical, Used({}, {}, DAILY_ROUNDS));
    if id in plan.rounds[l].choices && id in plan.rounds[k].choices {
      FreshMeansNew(plan.rounds, {}, l, k, id);
    }
  }

  /** Free play on forty different users repeats no one as a distractor. */
  lemma FreePlayAvoidsRepeats(score: Score, pool: seq<User>, random: Source, l: int, k: int, id: UserId)
    requires IsSource(random)
    requires DistinctIds(pool) && |pool| >= CHOICES_PER_ROUND * FREEPLAY_ROUNDS && EnoughPosts(pool)
    requires 0 <= l < k < FREEPLAY_ROUNDS
    ensures var plan := BuildFreePlayPlan(score, pool, random);
      && plan.Rounds? && |plan.rounds| == FREEPLAY_ROUNDS
      && (id in plan.rounds[l].choices && id in plan.rounds[k].choices ==> id == plan.rounds[k].target)
  {
    var canonical := CanonicalOrder(pool);
    var plan := FreePlayPlanIsBuilt(score, pool, random);
    CanonicalKeepsIds(pool);
    TurnsAreFromPool(canonical, random);
    DistinctIdsCount(canonical);
    var planner := PlannerIsSparing(FreePlay, score, canonical, random);
    var same := LargePoolsAvoidRepeats(
      planner, FreePlayTurns(canonical, random), 0, canonical, Used({}, {}, |canonical|));
    if id in plan.rounds[l].choices && id in plan.rounds[k].choices {
      FreshMeansNew(plan.rounds, {}, l, k, id);
    }
  }

  // --------------------------------------------------------------------
  // How often free play asks about each user
  // --------------------------------------------------------------------

  /** How many of the first n rounds are about the user at place p of m. */
  function Turns(n: int, m: int, p: int): int
    requires n >= 0 && m > 0
  {
    if n == 0 then 0 else Turns(n - 1, m, p) + if (n - 1) % m == p then 1 else 0
  }

  lemma NextRemainder(n: int, m: int)
    requires n >= 0 && m > 0
    ensures if n % m == m - 1 then (n + 1) % m == 0 && (n + 1) / m == n / m + 1
            else (n + 1) % m == n % m + 1 && (n + 1) / m == n / m
  {
    var q, r := n / m, n % m;
    assert n == q * m + r;
    if r == m - 1 {
      assert n + 1 == (q + 1) * m;
      DivMod(n + 1, m, q + 1, 0);
    } else {
      assert n + 1 == q * m + (r + 1);
      DivMod(n + 1, m, q, r + 1);
    }
  }

  lemma DivMod(n: int, m: int, q: int, r: int)
    requires m > 0 && 0 <= r < m && n == q * m + r && n >= 0
    ensures n / m == q && n % m == r
  {
    var d := n / m - q;
    assert n == (n / m) * m + n % m;
    assert d * m == r - n % m;
    SmallMultiple(d, m);
  }

  lemma SmallMultiple(d: int, m: int)
    requires m > 0
    ensures d > 0 ==> d * m >= m
    ensures d < 0 ==> d * m <= -m
  {
  }

  lemma {:induction false} TurnsAreEven(n: int, m: int, p: int)
    requires n >= 0 && 0 <= p < m
    ensures Turns(n, m, p) == n / m + if p < n % m then 1 else 0
  {
    if n > 0 {
      TurnsAreEven(n - 1, m, p);
      NextRemainder(n - 1, m);
    } else {
      DivMod(0, m, 0, 0);
    }
  }

  function CountTurns(turns: seq<User>, id: UserId): int {
    if turns == [] then 0
    else CountTurns(turns[..|turns| - 1], id) + if turns[|turns| - 1].id == id then 1 else 0
  }

  lemma {:induction false} RoundRobinCounts(shuffled: seq<User>, turns: seq<User>, p: int)
    requires DistinctIds(shuffled) && 0 <= p < |shuffled|
    requires forall k | 0 <= k < |turns| :: turns[k] == shuffled[k % |shuffled|]
    ensures CountTurns(turns, shuffled[p].id) == Turns(|turns|, |shuffled|, p)
    decreases |turns|
  {
    if turns != [] {
      var n := |turns| - 1;
      RoundRobinCounts(shuffled, turns[..n], p);
      var q := n % |shuffled|;
      assert turns[n] == shuffled[q];
      assert shuffled[q].id == shuffled[p].id <==> q == p;
    }
  }

  /** Free play asks about any two users of the pool equally often, up to one round. */
  lemma FreePlayIsEven(pool: seq<User>, random: Source, u: User, v: User)
    requires IsSource(random) && DistinctIds(pool) && u in pool && v in pool
    ensures var turns := FreePlayTurns(CanonicalOrder(pool), random);
      -1 <= CountTurns(turns, u.id) - CountTurns(turns, v.id) <= 1
  {
    var canonical := CanonicalOrder(pool);
    CanonicalKeepsIds(pool);
    PickedSize(canonical, |canonical|, random, 0);
    PickedIsSample(canonical, |canonical|, random, 0);
    var shuffled := Picked(canonical, |canonical|, random, 0);
    PartHasDistinctIds(shuffled, canonical);
    SameElements(shuffled, canonical);
    var p :| 0 <= p < |shuffled| && shuffled[p] == u;
    var q :| 0 <= q < |shuffled| && shuffled[q] == v;
    var turns := FreePlayTurns(canonical, random);
    RoundRobinCounts(shuffled, turns, p);
    RoundRobinCounts(shuffled, turns, q);
    TurnsAreEven(FREEPLAY_ROUNDS, |shuffled|, p);
    TurnsAreEven(FREEPLAY_ROUNDS, |shuffled|, q);
  }

  // --------------------------------------------------------------------
  // The two loops
  // --------------------------------------------------------------------

  /** The rounds made so far, followed by what is still planned. */
  function Continued(rounds: seq<Round>, rest: Plan): Plan {
    if rest.Rounds? then Rounds(rounds + rest.rounds) else rest
  }

  lemma ContinuedOn(planner: Planner, turns: seq<User>, i: int, used: Used, rounds: seq<Round>, step: Step)
    requires 0 <= i < |turns| && step == Planning(planner, turns[i], i + 1, used)
    requires step.Failed? ==> !step.why.Rounds?
    ensures Continued(rounds, RoundsFrom(planner, turns, i, used)) ==
      match step
      case Failed(why) => why
      case Made(r, after) => Continued(rounds + [r], RoundsFrom(planner, turns, i + 1, after))
  {
    if step.Made? {
      var rest := RoundsFrom(planner, turns, i + 1, step.used);
      if rest.Rounds? {
        assert rounds + ([step.round] + rest.rounds) == rounds + [step.round] + rest.rounds;
      }
    }
  }

  lemma SeenIds(users: seq<User>, seen: set<UserId>)
    requires seen == set k | 0 <= k < |users| :: users[k].id
    ensures seen == Elements(Ids(users))
  {
    forall id ensures id in seen <==> id in Elements(Ids(users)) {
      if id in Elements(Ids(users)) {
        var k :| 0 <= k < |users| && Ids(users)[k] == id;
      }
      if id in seen {
        var k :| 0 <= k < |users| && users[k].id == id;
        assert Ids(users)[k] == id;
      }
    }
  }

  method IdsSeen(users: seq<User>) returns (seen: set<UserId>)
    ensures seen == Elements(Ids(users))
  {
    seen := set k | 0 <= k < |users| :: users[k].id;
    SeenIds(users, seen);
  }

  method OrderChoices(kind: Kind, order: int, target: User, distractors: seq<User>, random: Source, at: int)
    returns (choices: seq<UserId>)
    requires IsSource(random) && KindOk(kind)
    ensures choices == Choices(kind, order, target, distractors, random, at)
  {
    var ids := [target.id] + Ids(distractors);
    if kind.Daily? {
      choices := PickWithoutReplacement(Ascending(ids), |ids|, kind.choiceOrder(order), 0);
    } else {
      choices := PickWithoutReplacement(ids, CHOICES_PER_ROUND, random, at);
    }
  }

  method MakeRound(kind: Kind, target: User, order: int, users: seq<User>, used: Used, random: Source, at: int)
    returns (round: Round)
    requires IsSource(random) && KindOk(kind)
    ensures round == MadeBy(MakerOf(kind, random), target, order, users, used, at)
  {
    var postIds := PickWithoutReplacement(PostsInOrder(kind, target), MAX_POSTS_PER_ROUND, random, used.draws);
    var choices := OrderChoices(kind, order, target, users, random, at);
    round := Round(order, target.id, postIds, choices);
  }

  method FinishRound(kind: Kind, target: User, order: int, used: Used, s: Selection, random: Source) returns (step: Step)
    requires IsSource(random) && KindOk(kind) && |target.postIds| >= MAX_POSTS_PER_ROUND
    ensures step == StepOf(kind, MakerOf(kind, random), target, order, used, s)
  {
    match s
    case Insufficient => step := Failed(InsufficientDistractors);
    case Chosen(users, drawn) =>
      var at := used.draws + MAX_POSTS_PER_ROUND + drawn;
      var round := MakeRound(kind, target, order, users, used, random, at);
      var seen := IdsSeen(users);
      step := Made(round, Used(used.any + {target.id} + seen, used.targets + {target.id},
                               if kind.Daily? then at else at + CHOICES_PER_ROUND));
  }

  method Distract(kind: Kind, score: Score, target: User, pool: seq<User>, used: Used, random: Source)
    returns (s: Selection)
    requires IsSource(random)
    ensures s == Distracted(kind, score, target, pool, used, random)
  {
    s := SelectDistractorsWithFallback(
      score, target, pool, CHOICES_PER_ROUND - 1, used.any + {target.id}, used.targets + {target.id},
      ModeOf(kind), random, used.draws + MAX_POSTS_PER_ROUND);
  }

  /** One turn of either loop. */
  method NextRound(
      kind: Kind, score: Score, target: User, order: int, pool: seq<User>, used: Used, random: Source) returns (step: Step)
    requires IsSource(random) && KindOk(kind)
    ensures step == Planning(PlannerOf(kind, score, pool, random), target, order, used)
    ensures step.Failed? ==> !step.why.Rounds?
  {
    if |target.postIds| < MAX_POSTS_PER_ROUND {
      return Failed(InsufficientTargetPosts);
    }
    var s := Distract(kind, score, target, pool, used, random);
    step := FinishRound(kind, target, order, used, s, random);
    PlanningIs(kind, score, target, order, pool, used, random, s);
  }

  method PlanRounds(kind: Kind, score: Score, turns: seq<User>, pool: seq<User>, first: Used, random: Source)
    returns (plan: Plan)
    requires IsSource(random) && KindOk(kind)
    ensures plan == RoundsFrom(PlannerOf(kind, score, pool, random), turns, 0, first)
  {
    ghost var planner := PlannerOf(kind, score, pool, random);
    var used, rounds := first, [];
    ghost var whole := RoundsFrom(planner, turns, 0, first);
    for i := 0 to |turns|
      invariant whole == Continued(rounds, RoundsFrom(planner, turns, i, used))
    {
      var step := NextRound(kind, score, turns[i], i + 1, pool, used, random);
      ContinuedOn(planner, turns, i, used, rounds, step);
      match step
      case Failed(why) => return why;
      case Made(round, after) => rounds, used := rounds + [round], after;
    }
    plan := Rounds(rounds);
  }

  method BuildDailyChallengePlan(score: Score, pool: seq<User>, random: Source, choiceOrder: int -> Source)
    returns (plan: Plan)
    requires IsSource(random) && KindOk(Daily(choiceOrder))
    ensures plan == BuildDailyPlan(score, pool, random, choiceOrder)
  {
    if |pool| < DAILY_ROUNDS {
      return InsufficientPool;
    }
    var canonical := CanonicalOrder(pool);
    var turns := PickWithoutReplacement(canonical, DAILY_ROUNDS, random, 0);
    plan := PlanRounds(Daily(choiceOrder), score, turns, canonical, Used({}, {}, DAILY_ROUNDS), random);
  }

  method BuildFreeplayRoundPlan(score: Score, pool: seq<User>, random: Source) returns (plan: Plan)
    requires IsSource(random)
    ensures plan == BuildFreePlayPlan(score, pool, random)
  {
    if |pool| == 0 {
      return InsufficientPool;
    }
    var canonical := CanonicalOrder(pool);
    var shuffled := PickWithoutReplacement(canonical, |canonical|, random, 0);
    PickedSize(canonical, |canonical|, random, 0);
    var turns := seq(FREEPLAY_ROUNDS, i requires 0 <= i < FREEPLAY_ROUNDS => shuffled[i % |shuffled|]);
    assert turns == FreePlayTurns(canonical, random);
    plan := PlanRounds(FreePlay, score, turns, canonical, Used({}, {}, |canonical|), random);
  }
}

/**
 Which plans are drawn (apps/guess/src/game/freeplay.ts, apps/guess/src/game/daily-challenge.ts): exactly
 the rows of rounds in which every round is about the next target, shows five of its posts in any order,
 and offers the target and a selectable row of distractors in any order. No order of choices is shut out.
 */
module DrawnPlans {
  import opened Distractors
  import opened DrawnSelections
  import opened RandomSource
  import opened RoundPlans
  import opened Sorting

  const RIVALS := CHOICES_PER_ROUND - 1

  /** All draws of a plan: the main ones, and for each daily round those of its choice order. */
  datatype Tape = Tape(daily: bool, main: Draws, orders: int -> Draws)

  function KindOf(tape: Tape): Kind {
    if tape.daily then Daily((order: int) => Scaled(tape.orders(order))) else FreePlay
  }

  function RandomOf(tape: Tape): Source {
    Scaled(tape.main)
  }

  ghost predicate AreTape(tape: Tape) {
    && AreDraws(tape.main) && (forall order :: AreDraws(tape.orders(order)))
    && IsSource(RandomOf(tape)) && KindOk(KindOf(tape))
  }

  lemma DrawsMakeTape(tape: Tape)
    requires AreDraws(tape.main) && forall order :: AreDraws(tape.orders(order))
    ensures AreTape(tape)
  {
    ScaledIsSource(tape.main);
    forall order ensures IsSource(Scaled(tape.orders(order))) {
      ScaledIsSource(tape.orders(order));
    }
  }

  /** The draws of a tape from one on, and the choice orders of the rounds after one. */
  ghost predicate SameFrom(t: Tape, u: Tape, at: int, order: int) {
    && t.daily == u.daily && AgreeFrom(t.main, u.main, at)
    && forall o | o > order :: t.orders(o) == u.orders(o)
  }

  /** The draws of a tape before one, and the choice orders up to one. */
  ghost predicate SameBefore(t: Tape, u: Tape, at: int, order: int) {
    && t.daily == u.daily && (forall k | k < at :: t.main(k) == u.main(k))
    && forall o | o <= order :: t.orders(o) == u.orders(o)
  }

  // --------------------------------------------------------------------
  // The order of the choices
  // --------------------------------------------------------------------

  function WithOrder(tape: Tape, order: int, draws: Draws): Tape {
    var orders := tape.orders;
    tape.(orders := (o: int) => if o == order then draws else orders(o))
  }

  lemma WithOrderIsTape(tape: Tape, order: int, draws: Draws)
    requires AreTape(tape) && AreDraws(draws)
    ensures AreTape(WithOrder(tape, order, draws)) && WithOrder(tape, order, draws).orders(order) == draws
    ensures forall o | o != order :: WithOrder(tape, order, draws).orders(o) == tape.orders(o)
  {
    DrawsMakeTape(WithOrder(tape, order, draws));
  }

  lemma DailyChoiceOrder(ids: seq<UserId>, wanted: seq<UserId>, base: Draws) returns (draws: Draws)
    requires AreDraws(base) && multiset(wanted) == multiset(ids)
    ensures AreDraws(draws) && IsSource(Scaled(draws)) && Picked(Ascending(ids), |ids|, Scaled(draws), 0) == wanted
  {
    SameElements(wanted, ids);
    draws := EverySampleIsDrawn(Ascending(ids), wanted, base, 0);
  }

  lemma FreePlayChoiceOrder(ids: seq<UserId>, wanted: seq<UserId>, base: Tape, at: int) returns (tape: Tape)
    requires AreTape(base) && !base.daily && multiset(wanted) == multiset(ids)
    ensures AreTape(tape) && !tape.daily && tape.orders == base.orders
    ensures SameOutside(tape.main, base.main, at, at + |ids|)
    ensures Picked(ids, |ids|, RandomOf(tape), at) == wanted
  {
    SameElements(wanted, ids);
    var draws := EverySampleIsDrawn(ids, wanted, base.main, at);
    tape := base.(main := draws);
    DrawsMakeTape(tape);
  }

  /** In either kind of round, every arrangement of the target and the distractors is its choices for some draws. */
  lemma EveryChoiceOrderIsDrawn(
      order: int, target: User, users: seq<User>, wanted: seq<UserId>, base: Tape, at: int) returns (tape: Tape)
    requires AreTape(base) && |users| == RIVALS && multiset(wanted) == multiset([target.id] + Ids(users))
    ensures AreTape(tape) && SameBefore(tape, base, at, order - 1)
    ensures SameFrom(tape, base, if base.daily then at else at + CHOICES_PER_ROUND, order)
    ensures Choices(KindOf(tape), order, target, users, RandomOf(tape), at) == wanted
  {
    if base.daily {
      var draws := DailyChoiceOrder([target.id] + Ids(users), wanted, base.orders(order));
      tape := WithOrder(base, order, draws);
      WithOrderIsTape(base, order, draws);
    } else {
      tape := FreePlayChoiceOrder([target.id] + Ids(users), wanted, base, at);
    }
  }

  lemma ChoicesAgree(order: int, target: User, users: seq<User>, t: Tape, u: Tape, at: int)
    requires AreTape(t) && AreTape(u) && SameFrom(t, u, at, order - 1)
    ensures Choices(KindOf(t), order, target, users, RandomOf(t), at) == Choices(KindOf(u), order, target, users, RandomOf(u), at)
  {
    if t.daily {
      assert t.orders(order) == u.orders(order);
    } else {
      PickedAgree([target.id] + Ids(users), CHOICES_PER_ROUND, t.main, u.main, at);
    }
  }

  // --------------------------------------------------------------------
  // One round
  // --------------------------------------------------------------------

  function ModeFor(daily: bool): Mode {
    if daily then Deterministic else Random
  }

  /** The candidates the distractors of a round are taken from. */
  ghost function RivalsOf(target: User, pool: seq<User>, used: Used): seq<User> {
    Candidates(target, pool, LeftOut(target, pool, RIVALS, used.any + {target.id}, used.targets + {target.id}))
  }

  /** Where the draws of a round for its choices begin. */
  ghost function ChoicesAt(daily: bool, score: Score, target: User, pool: seq<User>, used: Used): int {
    used.draws + MAX_POSTS_PER_ROUND + SelectionDraws(ModeFor(daily), score, target, RivalsOf(target, pool, used))
  }

  /** What is used after a round whose draws for its choices begin at one. */
  ghost function UsedWith(daily: bool, target: User, used: Used, users: seq<User>, choicesAt: int): Used {
    Used(used.any + {target.id} + Elements(Ids(users)), used.targets + {target.id},
         choicesAt + if daily then 0 else CHOICES_PER_ROUND)
  }

  /** What is used after a round. */
  ghost function UsedAfterRound(
      daily: bool, score: Score, target: User, pool: seq<User>, used: Used, users: seq<User>): Used {
    UsedWith(daily, target, used, users, ChoicesAt(daily, score, target, pool, used))
  }

  /** A round about the target with these distractors. */
  ghost predicate CanBeRound(
      daily: bool, score: Score, target: User, order: int, pool: seq<User>, used: Used, users: seq<User>, r: Round) {
    && r.order == order && r.target == target.id
    && |r.postIds| == MAX_POSTS_PER_ROUND && multiset(r.postIds) <= multiset(target.postIds)
    && CanBeChosen(ModeFor(daily), score, target, RivalsOf(target, pool, used), RIVALS, users)
    && multiset(r.choices) == multiset([target.id] + Ids(users))
  }

  ghost function PlannerFor(tape: Tape, score: Score, pool: seq<User>): Planner
    requires AreTape(tape)
  {
    PlannerOf(KindOf(tape), score, pool, RandomOf(tape))
  }

  ghost function SelectedFor(tape: Tape, score: Score, target: User, pool: seq<User>, used: Used): Selection
    requires AreTape(tape)
  {
    Distracted(KindOf(tape), score, target, pool, used, RandomOf(tape))
  }

  lemma DistractedIs(kind: Kind, score: Score, target: User, pool: seq<User>, used: Used, random: Source)
    requires IsSource(random)
    ensures Distracted(kind, score, target, pool, used, random)
         == Select(score, target, pool, RIVALS, LeftOut(target, pool, RIVALS, used.any + {target.id}, used.targets + {target.id}),
                   ModeOf(kind), random, used.draws + MAX_POSTS_PER_ROUND)
  {
    FallbackIsOneSelection(
      score, target, pool, RIVALS, used.any + {target.id}, used.targets + {target.id},
      ModeOf(kind), random, used.draws + MAX_POSTS_PER_ROUND);
  }

  lemma SelectedForIs(tape: Tape, score: Score, target: User, pool: seq<User>, used: Used)
    requires AreTape(tape)
    ensures SelectedFor(tape, score, target, pool, used)
         == Select(score, target, pool, RIVALS, LeftOut(target, pool, RIVALS, used.any + {target.id}, used.targets + {target.id}),
                   ModeFor(tape.daily), RandomOf(tape), used.draws + MAX_POSTS_PER_ROUND)
  {
    DistractedIs(KindOf(tape), score, target, pool, used, RandomOf(tape));
  }

  /** The posts and the choices of a round. */
  ghost function RoundBy(tape: Tape, target: User, order: int, users: seq<User>, postsAt: int, choicesAt: int): Round
    requires AreTape(tape)
  {
    Round(order, target.id, Picked(PostsInOrder(KindOf(tape), target), MAX_POSTS_PER_ROUND, RandomOf(tape), postsAt),
          Choices(KindOf(tape), order, target, users, RandomOf(tape), choicesAt))
  }

  lemma StepIs(
      kind: Kind, make: Maker, target: User, order: int, used: Used, users: seq<User>, drawn: int, at: int, r: Round)
    requires |target.postIds| >= MAX_POSTS_PER_ROUND && at == used.draws + MAX_POSTS_PER_ROUND + drawn
    requires MadeBy(make, target, order, users, used, at) == r
    ensures StepOf(kind, make, target, order, used, Chosen(users, drawn)) == Made(r, UsedWith(kind.Daily?, target, used, users, at))
  {
  }

  lemma MakerMakes(tape: Tape, target: User, order: int, users: seq<User>, used: Used, at: int) returns (make: Maker)
    requires AreTape(tape)
    ensures make == MakerOf(KindOf(tape), RandomOf(tape))
    ensures MadeBy(make, target, order, users, used, at) == RoundBy(tape, target, order, users, used.draws, at)
  {
    make := MakerOf(KindOf(tape), RandomOf(tape));
  }

  lemma PlannedFor(tape: Tape, score: Score, target: User, order: int, pool: seq<User>, used: Used) returns (s: Selection)
    requires AreTape(tape)
    ensures s == SelectedFor(tape, score, target, pool, used)
    ensures Planning(PlannerFor(tape, score, pool), target, order, used)
         == StepOf(KindOf(tape), MakerOf(KindOf(tape), RandomOf(tape)), target, order, used, s)
  {
    s := SelectedFor(tape, score, target, pool, used);
    PlanningIs(KindOf(tape), score, target, order, pool, used, RandomOf(tape), s);
  }

  /** The round as its posts, its distractors and its choices. */
  lemma RoundIs(tape: Tape, score: Score, target: User, order: int, pool: seq<User>, used: Used, users: seq<User>)
    requires AreTape(tape) && |target.postIds| >= MAX_POSTS_PER_ROUND
    requires SelectedFor(tape, score, target, pool, used)
      == Chosen(users, SelectionDraws(ModeFor(tape.daily), score, target, RivalsOf(target, pool, used)))
    ensures Planning(PlannerFor(tape, score, pool), target, order, used) == Made(
      RoundBy(tape, target, order, users, used.draws, ChoicesAt(tape.daily, score, target, pool, used)),
      UsedAfterRound(tape.daily, score, target, pool, used, users))
  {
    var s := PlannedFor(tape, score, target, order, pool, used);
    var at := ChoicesAt(tape.daily, score, target, pool, used);
    var make := MakerMakes(tape, target, order, users, used, at);
    StepIs(KindOf(tape), make, target, order, used, users, s.used, at, RoundBy(tape, target, order, users, used.draws, at));
  }

  /** What a round comes to, for any draws. */
  lemma PlannedRound(tape: Tape, score: Score, target: User, order: int, pool: seq<User>, used: Used)
    returns (r: Round, users: seq<User>)
    requires AreTape(tape) && Planning(PlannerFor(tape, score, pool), target, order, used).Made?
    ensures CanBeRound(tape.daily, score, target, order, pool, used, users, r)
    ensures Planning(PlannerFor(tape, score, pool), target, order, used)
         == Made(r, UsedAfterRound(tape.daily, score, target, pool, used, users))
  {
    var s := PlannedFor(tape, score, target, order, pool, used);
    SelectedForIs(tape, score, target, pool, used);
    users := s.users;
    SelectedCanBeChosen(
      ModeFor(tape.daily), score, target, pool, RIVALS,
      LeftOut(target, pool, RIVALS, used.any + {target.id}, used.targets + {target.id}),
      RandomOf(tape), used.draws + MAX_POSTS_PER_ROUND);
    RoundIs(tape, score, target, order, pool, used, users);
    r := RoundBy(tape, target, order, users, used.draws, ChoicesAt(tape.daily, score, target, pool, used));
    PostsAreFive(KindOf(tape), target, RandomOf(tape), used.draws);
    ChoicesAreArranged(
      KindOf(tape), order, target, users, RandomOf(tape), ChoicesAt(tape.daily, score, target, pool, used));
  }

  lemma PostsAgree(target: User, t: Tape, u: Tape, at: int)
    requires AreTape(t) && AreTape(u) && t.daily == u.daily && AgreeOn(t.main, u.main, at, at + MAX_POSTS_PER_ROUND)
    ensures Picked(PostsInOrder(KindOf(t), target), MAX_POSTS_PER_ROUND, RandomOf(t), at)
         == Picked(PostsInOrder(KindOf(u), target), MAX_POSTS_PER_ROUND, RandomOf(u), at)
  {
    PickedAgree(PostsInOrder(KindOf(t), target), MAX_POSTS_PER_ROUND, t.main, u.main, at);
  }

  lemma SelectedAgree(t: Tape, u: Tape, score: Score, target: User, pool: seq<User>, used: Used)
    requires AreTape(t) && AreTape(u) && t.daily == u.daily && AgreeFrom(t.main, u.main, used.draws + MAX_POSTS_PER_ROUND)
    ensures SelectedFor(t, score, target, pool, used) == SelectedFor(u, score, target, pool, used)
  {
    SelectedForIs(t, score, target, pool, used);
    SelectedForIs(u, score, target, pool, used);
    SelectAgrees(
      ModeFor(t.daily), score, target, pool, RIVALS,
      LeftOut(target, pool, RIVALS, used.any + {target.id}, used.targets + {target.id}),
      t.main, u.main, used.draws + MAX_POSTS_PER_ROUND);
  }

  lemma RoundByAgrees(
      t: Tape, u: Tape, target: User, order: int, users: seq<User>, postsAt: int, choicesAt: int)
    requires AreTape(t) && AreTape(u) && SameFrom(t, u, postsAt, order - 1) && postsAt <= choicesAt
    ensures RoundBy(t, target, order, users, postsAt, choicesAt) == RoundBy(u, target, order, users, postsAt, choicesAt)
  {
    PostsAgree(target, t, u, postsAt);
    ChoicesAgree(order, target, users, t, u, choicesAt);
  }

  lemma ChoicesComeLater(daily: bool, score: Score, target: User, pool: seq<User>, used: Used)
    ensures used.draws + MAX_POSTS_PER_ROUND <= ChoicesAt(daily, score, target, pool, used)
  {
    SelectionDrawsAreSome(ModeFor(daily), score, target, RivalsOf(target, pool, used));
  }

  /** A round depends on its own draws and later ones alone. */
  lemma RoundAgrees(t: Tape, u: Tape, score: Score, target: User, order: int, pool: seq<User>, used: Used)
    requires AreTape(t) && AreTape(u) && SameFrom(t, u, used.draws, order - 1)
    ensures Planning(PlannerFor(t, score, pool), target, order, used)
         == Planning(PlannerFor(u, score, pool), target, order, used)
  {
    SelectedAgree(t, u, score, target, pool, used);
    var s := PlannedFor(t, score, target, order, pool, used);
    var _ := PlannedFor(u, score, target, order, pool, used);
    if |target.postIds| >= MAX_POSTS_PER_ROUND && s.Chosen? {
      SelectedForIs(t, score, target, pool, used);
      ChoicesComeLater(t.daily, score, target, pool, used);
      RoundIs(t, score, target, order, pool, used, s.users);
      RoundIs(u, score, target, order, pool, used, s.users);
      RoundByAgrees(t, u, target, order, s.users, used.draws, ChoicesAt(t.daily, score, target, pool, used));
    }
  }

  // --------------------------------------------------------------------
  // Every such round is drawn
  // --------------------------------------------------------------------

  lemma SameBeforeThat(t: Tape, u: Tape, v: Tape, at: int, later: int, order: int, last: int)
    requires at <= later && order <= last && SameBefore(t, u, at, order) && SameBefore(u, v, later, last)
    ensures SameBefore(t, v, at, order)
  {
  }

  lemma SameFromThat(t: Tape, u: Tape, v: Tape, at: int, earlier: int, order: int, before: int)
    requires earlier <= at && before <= order && SameFrom(t, u, earlier, before) && SameFrom(u, v, at, order)
    ensures SameFrom(t, v, at, order)
  {
  }

  lemma PostsAreDrawn(target: User, posts: seq<PostId>, base: Tape, at: int, order: int) returns (tape: Tape)
    requires AreTape(base) && |posts| == MAX_POSTS_PER_ROUND && multiset(posts) <= multiset(target.postIds)
    ensures AreTape(tape) && SameBefore(tape, base, at, order) && SameFrom(tape, base, at + MAX_POSTS_PER_ROUND, order)
    ensures Picked(PostsInOrder(KindOf(tape), target), MAX_POSTS_PER_ROUND, RandomOf(tape), at) == posts
  {
    var draws := EverySampleIsDrawn(PostsInOrder(KindOf(base), target), posts, base.main, at);
    tape := base.(main := draws);
    DrawsMakeTape(tape);
  }

  lemma DistractorsAreDrawn(score: Score, target: User, pool: seq<User>, used: Used, users: seq<User>, base: Tape, order: int)
    returns (tape: Tape)
    requires AreTape(base)
    requires CanBeChosen(ModeFor(base.daily), score, target, RivalsOf(target, pool, used), RIVALS, users)
    ensures AreTape(tape) && SameBefore(tape, base, used.draws + MAX_POSTS_PER_ROUND, order)
    ensures SameFrom(tape, base, ChoicesAt(base.daily, score, target, pool, used), order)
    ensures SelectedFor(tape, score, target, pool, used)
         == Chosen(users, SelectionDraws(ModeFor(base.daily), score, target, RivalsOf(target, pool, used)))
  {
    var draws := EverySelectionIsDrawn(
      ModeFor(base.daily), score, target, pool, RIVALS,
      LeftOut(target, pool, RIVALS, used.any + {target.id}, used.targets + {target.id}), users,
      base.main, used.draws + MAX_POSTS_PER_ROUND);
    tape := base.(main := draws);
    DrawsMakeTape(tape);
    SelectedForIs(tape, score, target, pool, used);
  }

  /** Every such round is made by some draws, that differ from any given ones only there. */
  lemma EveryRoundIsDrawn(
      score: Score, target: User, order: int, pool: seq<User>, used: Used, users: seq<User>, r: Round, base: Tape)
    returns (tape: Tape)
    requires AreTape(base) && CanBeRound(base.daily, score, target, order, pool, used, users, r)
    ensures AreTape(tape) && SameBefore(tape, base, used.draws, order - 1)
    ensures SameFrom(tape, base, UsedAfterRound(base.daily, score, target, pool, used, users).draws, order)
    ensures Planning(PlannerFor(tape, score, pool), target, order, used)
         == Made(r, UsedAfterRound(base.daily, score, target, pool, used, users))
  {
    var postsAt, rivalsAt := used.draws, used.draws + MAX_POSTS_PER_ROUND;
    var choicesAt := ChoicesAt(base.daily, score, target, pool, used);
    var end := UsedAfterRound(base.daily, score, target, pool, used, users).draws;
    ChoicesComeLater(base.daily, score, target, pool, used);
    var t := EveryChoiceOrderIsDrawn(order, target, users, r.choices, base, choicesAt);
    var u := DistractorsAreDrawn(score, target, pool, used, users, t, order - 1);
    tape := PostsAreDrawn(target, r.postIds, u, postsAt, order - 1);
    SelectedAgree(tape, u, score, target, pool, used);
    SameFromThat(tape, u, t, choicesAt, rivalsAt, order - 1, order - 1);
    ChoicesAgree(order, target, users, tape, t, choicesAt);
    SameFromThat(tape, t, base, end, choicesAt, order, order - 1);
    SameBeforeThat(tape, u, t, postsAt, rivalsAt, order - 1, order - 1);
    SameBeforeThat(tape, t, base, postsAt, choicesAt, order - 1, order - 1);
    MorePosts(r.postIds, target);
    RoundIs(tape, score, target, order, pool, used, users);
  }

  lemma MorePosts(posts: seq<PostId>, target: User)
    requires multiset(posts) <= multiset(target.postIds)
    ensures |target.postIds| >= |posts|
  {
    assert multiset(target.postIds) == multiset(posts) + (multiset(target.postIds) - multiset(posts));
    assert |multiset(target.postIds)| == |target.postIds| && |multiset(posts)| == |posts|;
  }

  // --------------------------------------------------------------------
  // All rounds
  // --------------------------------------------------------------------

  /** Rounds about these turns, with their distractors and what is used before each of them and at the end. */
  datatype Course = Course(turns: seq<User>, rounds: seq<Round>, rivals: seq<seq<User>>, states: seq<Used>)

  ghost predicate RoundFits(daily: bool, score: Score, pool: seq<User>, c: Course, k: int)
    requires 0 <= k < |c.turns| && k < |c.rounds| && k < |c.rivals| && k + 1 < |c.states|
  {
    && CanBeRound(daily, score, c.turns[k], k + 1, pool, c.states[k], c.rivals[k], c.rounds[k])
    && c.states[k + 1] == UsedAfterRound(daily, score, c.turns[k], pool, c.states[k], c.rivals[k])
  }

  /** Each of the first n rounds can follow those before it. */
  ghost predicate CanFollow(daily: bool, score: Score, pool: seq<User>, c: Course, n: int) {
    && 0 <= n <= |c.turns| == |c.rounds| && n == |c.rivals| == |c.states| - 1
    && forall k | 0 <= k < n :: RoundFits(daily, score, pool, c, k)
  }

  lemma DrawsGoOn(daily: bool, score: Score, target: User, pool: seq<User>, used: Used, users: seq<User>)
    ensures UsedAfterRound(daily, score, target, pool, used, users).draws >= used.draws
  {
    ChoicesComeLater(daily, score, target, pool, used);
  }

  lemma {:induction false} RoundsAgree(
      t: Tape, u: Tape, score: Score, pool: seq<User>, turns: seq<User>, i: int, used: Used)
    requires AreTape(t) && AreTape(u) && 0 <= i <= |turns| && SameFrom(t, u, used.draws, i)
    ensures RoundsFrom(PlannerFor(t, score, pool), turns, i, used) == RoundsFrom(PlannerFor(u, score, pool), turns, i, used)
    decreases |turns| - i
  {
    if i < |turns| {
      RoundAgrees(t, u, score, turns[i], i + 1, pool, used);
      var step := Planning(PlannerFor(t, score, pool), turns[i], i + 1, used);
      if step.Made? {
        var r, users := PlannedRound(t, score, turns[i], i + 1, pool, used);
        DrawsGoOn(t.daily, score, turns[i], pool, used, users);
        RoundsAgree(t, u, score, pool, turns, i + 1, step.used);
      }
    }
  }

  lemma FirstRoundIs(planner: Planner, turns: seq<User>, i: int, used: Used, rounds: seq<Round>)
    returns (r: Round, after: Used, rest: seq<Round>)
    requires 0 <= i < |turns| && RoundsFrom(planner, turns, i, used) == Rounds(rounds)
    requires Planning(planner, turns[i], i + 1, used).Failed? ==> !Planning(planner, turns[i], i + 1, used).why.Rounds?
    ensures Planning(planner, turns[i], i + 1, used) == Made(r, after)
    ensures RoundsFrom(planner, turns, i + 1, after) == Rounds(rest) && rounds == [r] + rest
  {
    var step := Planning(planner, turns[i], i + 1, used);
    r, after := step.round, step.used;
    rest := RoundsFrom(planner, turns, i + 1, after).rounds;
  }

  lemma OneMorePlanned(planner: Planner, turns: seq<User>, i: int, used: Used, r: Round, after: Used, rest: seq<Round>)
    requires 0 <= i < |turns| && Planning(planner, turns[i], i + 1, used) == Made(r, after)
    requires RoundsFrom(planner, turns, i + 1, after) == Rounds(rest)
    ensures RoundsFrom(planner, turns, i, used) == Rounds([r] + rest)
  {
  }

  lemma FailuresAreErrors(tape: Tape, score: Score, target: User, order: int, pool: seq<User>, used: Used)
    requires AreTape(tape) && Planning(PlannerFor(tape, score, pool), target, order, used).Failed?
    ensures !Planning(PlannerFor(tape, score, pool), target, order, used).why.Rounds?
  {
    var _ := PlannedFor(tape, score, target, order, pool, used);
  }

  /** The course with the distractors of its next round and what is used after it. */
  function Lengthened(c: Course, users: seq<User>, after: Used): Course {
    c.(rivals := c.rivals + [users], states := c.states + [after])
  }

  lemma OneMoreFollows(daily: bool, score: Score, pool: seq<User>, c: Course, n: int, users: seq<User>, after: Used)
    requires n < |c.turns| && CanFollow(daily, score, pool, c, n)
    requires CanBeRound(daily, score, c.turns[n], n + 1, pool, c.states[n], users, c.rounds[n])
    requires after == UsedAfterRound(daily, score, c.turns[n], pool, c.states[n], users)
    ensures CanFollow(daily, score, pool, Lengthened(c, users, after), n + 1)
  {
    var d := Lengthened(c, users, after);
    forall k | 0 <= k < n + 1 ensures RoundFits(daily, score, pool, d, k) {
      if k < n {
        assert RoundFits(daily, score, pool, c, k);
      }
    }
  }

  /** The course goes on with what is drawn. */
  lemma NextFollows(tape: Tape, score: Score, pool: seq<User>, c: Course, n: int) returns (d: Course)
    requires AreTape(tape) && n < |c.turns| && CanFollow(tape.daily, score, pool, c, n)
    requires RoundsFrom(PlannerFor(tape, score, pool), c.turns, n, c.states[n]) == Rounds(c.rounds[n..])
    ensures CanFollow(tape.daily, score, pool, d, n + 1)
    ensures d.turns == c.turns && d.rounds == c.rounds && d.states[0] == c.states[0]
    ensures RoundsFrom(PlannerFor(tape, score, pool), d.turns, n + 1, d.states[n + 1]) == Rounds(d.rounds[n + 1..])
  {
    if Planning(PlannerFor(tape, score, pool), c.turns[n], n + 1, c.states[n]).Failed? {
      FailuresAreErrors(tape, score, c.turns[n], n + 1, pool, c.states[n]);
    }
    var r, after, rest := FirstRoundIs(PlannerFor(tape, score, pool), c.turns, n, c.states[n], c.rounds[n..]);
    HeadOf(c.rounds, n, r, rest);
    var same, users := PlannedRound(tape, score, c.turns[n], n + 1, pool, c.states[n]);
    d := Lengthened(c, users, after);
    OneMoreFollows(tape.daily, score, pool, c, n, users, after);
  }

  lemma HeadOf<T>(s: seq<T>, n: int, x: T, rest: seq<T>)
    requires 0 <= n < |s| && s[n..] == [x] + rest
    ensures x == s[n] && rest == s[n + 1..]
  {
    assert s[n..][0] == x && s[n..][1..] == rest;
  }

  lemma TailOf<T>(s: seq<T>, n: int)
    requires 0 <= n < |s|
    ensures s[n..] == [s[n]] + s[n + 1..]
  {
  }

  /** Whatever is drawn, the rounds can follow each other. */
  lemma {:induction false} RoundsCanFollow(tape: Tape, score: Score, pool: seq<User>, c: Course, n: int) returns (d: Course)
    requires AreTape(tape) && CanFollow(tape.daily, score, pool, c, n)
    requires RoundsFrom(PlannerFor(tape, score, pool), c.turns, n, c.states[n]) == Rounds(c.rounds[n..])
    ensures CanFollow(tape.daily, score, pool, d, |c.turns|)
    ensures d.turns == c.turns && d.rounds == c.rounds && d.states[0] == c.states[0]
    decreases |c.turns| - n
  {
    d := c;
    if n < |c.turns| {
      d := NextFollows(tape, score, pool, c, n);
      d := RoundsCanFollow(tape, score, pool, d, n + 1);
    }
  }

  /** The rounds from i on of such a course are drawn, whatever the draws before them. */
  lemma {:induction false} RoundsAreDrawn(score: Score, pool: seq<User>, c: Course, i: int, base: Tape) returns (tape: Tape)
    requires AreTape(base) && CanFollow(base.daily, score, pool, c, |c.turns|) && 0 <= i <= |c.turns|
    ensures AreTape(tape) && SameBefore(tape, base, c.states[i].draws, i)
    ensures RoundsFrom(PlannerFor(tape, score, pool), c.turns, i, c.states[i]) == Rounds(c.rounds[i..])
    decreases |c.turns| - i
  {
    if i == |c.turns| {
      tape := base;
    } else {
      var later := RoundsAreDrawn(score, pool, c, i + 1, base);
      tape := RoundBeforeThose(score, pool, c, i, later);
      StatesGoOn(base.daily, score, pool, c, i);
      SameBeforeThat(tape, later, base, c.states[i].draws, c.states[i + 1].draws, i, i + 1);
    }
  }

  lemma StatesGoOn(daily: bool, score: Score, pool: seq<User>, c: Course, i: int)
    requires CanFollow(daily, score, pool, c, |c.turns|) && 0 <= i < |c.turns|
    ensures c.states[i].draws <= c.states[i + 1].draws
  {
    assert RoundFits(daily, score, pool, c, i);
    DrawsGoOn(daily, score, c.turns[i], pool, c.states[i], c.rivals[i]);
  }

  lemma FitsAt(daily: bool, score: Score, pool: seq<User>, c: Course, k: int)
    returns (target: User, used: Used, users: seq<User>, r: Round, after: Used)
    requires CanFollow(daily, score, pool, c, |c.turns|) && 0 <= k < |c.turns|
    ensures target == c.turns[k] && used == c.states[k] && users == c.rivals[k] && r == c.rounds[k] && after == c.states[k + 1]
    ensures CanBeRound(daily, score, target, k + 1, pool, used, users, r)
    ensures after == UsedAfterRound(daily, score, target, pool, used, users)
  {
    target, used, users, r, after := c.turns[k], c.states[k], c.rivals[k], c.rounds[k], c.states[k + 1];
    assert RoundFits(daily, score, pool, c, k);
  }

  lemma RoundBeforeThose(score: Score, pool: seq<User>, c: Course, i: int, later: Tape) returns (tape: Tape)
    requires AreTape(later) && CanFollow(later.daily, score, pool, c, |c.turns|) && 0 <= i < |c.turns|
    requires RoundsFrom(PlannerFor(later, score, pool), c.turns, i + 1, c.states[i + 1]) == Rounds(c.rounds[i + 1..])
    ensures AreTape(tape) && SameBefore(tape, later, c.states[i].draws, i)
    ensures RoundsFrom(PlannerFor(tape, score, pool), c.turns, i, c.states[i]) == Rounds(c.rounds[i..])
  {
    var target, used, users, r, after := FitsAt(later.daily, score, pool, c, i);
    TailOf(c.rounds, i);
    tape := OneRoundBefore(score, pool, c.turns, i, used, users, r, after, c.rounds[i + 1..], later);
  }

  lemma OneRoundBefore(
      score: Score, pool: seq<User>, turns: seq<User>, i: int, used: Used, users: seq<User>, r: Round, after: Used,
      rest: seq<Round>, later: Tape) returns (tape: Tape)
    requires AreTape(later) && 0 <= i < |turns| && CanBeRound(later.daily, score, turns[i], i + 1, pool, used, users, r)
    requires after == UsedAfterRound(later.daily, score, turns[i], pool, used, users)
    requires RoundsFrom(PlannerFor(later, score, pool), turns, i + 1, after) == Rounds(rest)
    ensures AreTape(tape) && SameBefore(tape, later, used.draws, i)
    ensures RoundsFrom(PlannerFor(tape, score, pool), turns, i, used) == Rounds([r] + rest)
  {
    tape := EveryRoundIsDrawn(score, turns[i], i + 1, pool, used, users, r, later);
    RoundsAgree(tape, later, score, pool, turns, i + 1, after);
    OneMorePlanned(PlannerFor(tape, score, pool), turns, i, used, r, after, rest);
  }

  // --------------------------------------------------------------------
  // Whole plans
  // --------------------------------------------------------------------

  ghost function TurnsOf(tape: Tape, canonical: seq<User>): seq<User>
    requires AreTape(tape) && canonical != []
  {
    if tape.daily then DailyTurns(canonical, RandomOf(tape)) else FreePlayTurns(canonical, RandomOf(tape))
  }

  ghost function PlanOf(tape: Tape, score: Score, pool: seq<User>): Plan
    requires AreTape(tape)
  {
    if tape.daily then BuildDailyPlan(score, pool, RandomOf(tape), KindOf(tape).choiceOrder)
    else BuildFreePlayPlan(score, pool, RandomOf(tape))
  }

  predicate BigEnough(daily: bool, pool: seq<User>) {
    if daily then |pool| >= DAILY_ROUNDS else |pool| > 0
  }

  /** The rounds take their turns from an arrangement of the pool, starting over when it is at its end. */
  predicate AreInTurn(turns: seq<User>, shuffled: seq<User>) {
    && shuffled != [] && |turns| == FREEPLAY_ROUNDS
    && forall k | 0 <= k < FREEPLAY_ROUNDS :: turns[k] == shuffled[k % |shuffled|]
  }

  /** Whom the rounds can be about: five users in any order, or everyone in any order, one after the other. */
  ghost predicate CanBeTurns(daily: bool, canonical: seq<User>, turns: seq<User>) {
    if daily then |turns| == DAILY_ROUNDS && multiset(turns) <= multiset(canonical)
    else exists shuffled :: multiset(shuffled) == multiset(canonical) && AreInTurn(turns, shuffled)
  }

  function AtFirst(daily: bool, pool: seq<User>): Used {
    Used({}, {}, if daily then DAILY_ROUNDS else |pool|)
  }

  /** A course of a whole plan. */
  ghost predicate CanBePlan(daily: bool, score: Score, pool: seq<User>, c: Course) {
    && BigEnough(daily, pool) && CanBeTurns(daily, CanonicalOrder(pool), c.turns)
    && CanFollow(daily, score, CanonicalOrder(pool), c, |c.turns|) && c.states[0] == AtFirst(daily, pool)
  }

  lemma PlanIs(tape: Tape, score: Score, pool: seq<User>)
    requires AreTape(tape)
    ensures BigEnough(tape.daily, pool) ==> CanonicalOrder(pool) != []
    ensures PlanOf(tape, score, pool) ==
      if BigEnough(tape.daily, pool)
        then RoundsFrom(PlannerFor(tape, score, CanonicalOrder(pool)), TurnsOf(tape, CanonicalOrder(pool)), 0,
                        AtFirst(tape.daily, pool))
        else InsufficientPool
  {
  }

  lemma TurnsCanBe(tape: Tape, canonical: seq<User>)
    requires AreTape(tape) && BigEnough(tape.daily, canonical)
    ensures CanBeTurns(tape.daily, canonical, TurnsOf(tape, canonical))
  {
    var random := RandomOf(tape);
    if tape.daily {
      PickedSize(canonical, DAILY_ROUNDS, random, 0);
      PickedIsSample(canonical, DAILY_ROUNDS, random, 0);
    } else {
      PickedSize(canonical, |canonical|, random, 0);
      PickedIsSample(canonical, |canonical|, random, 0);
      assert AreInTurn(FreePlayTurns(canonical, random), Picked(canonical, |canonical|, random, 0));
    }
  }

  lemma TurnsAreDrawn(canonical: seq<User>, turns: seq<User>, base: Tape) returns (tape: Tape)
    requires AreTape(base) && BigEnough(base.daily, canonical) && CanBeTurns(base.daily, canonical, turns)
    ensures AreTape(tape) && SameFrom(tape, base, AtFirst(base.daily, canonical).draws, 0)
    ensures TurnsOf(tape, canonical) == turns
  {
    if base.daily {
      var draws := EverySampleIsDrawn(canonical, turns, base.main, 0);
      tape := base.(main := draws);
      DrawsMakeTape(tape);
    } else {
      var shuffled :| multiset(shuffled) == multiset(canonical) && AreInTurn(turns, shuffled);
      SameElements(shuffled, canonical);
      var draws := EverySampleIsDrawn(canonical, shuffled, base.main, 0);
      tape := base.(main := draws);
      DrawsMakeTape(tape);
      RoundRobinIs(canonical, shuffled, turns, RandomOf(tape));
    }
  }

  lemma RoundRobinIs(canonical: seq<User>, shuffled: seq<User>, turns: seq<User>, random: Source)
    requires IsSource(random) && canonical != [] && Picked(canonical, |canonical|, random, 0) == shuffled
    requires AreInTurn(turns, shuffled)
    ensures FreePlayTurns(canonical, random) == turns
  {
  }

  /** A planner that fails, fails with an error. */
  ghost predicate FailsWithErrors(planner: Planner) {
    forall target, order, used :: ErrsAt(planner, target, order, used)
  }

  ghost predicate ErrsAt(planner: Planner, target: User, order: int, used: Used) {
    var step := Planning(planner, target, order, used);
    step.Failed? ==> !step.why.Rounds?
  }

  lemma PlannerErrs(tape: Tape, score: Score, pool: seq<User>)
    requires AreTape(tape)
    ensures FailsWithErrors(PlannerFor(tape, score, pool))
  {
    var planner := PlannerFor(tape, score, pool);
    forall target, order, used ensures ErrsAt(planner, target, order, used) {
      var _ := PlannedFor(tape, score, target, order, pool, used);
    }
  }

  lemma {:induction false} OneRoundEach(planner: Planner, turns: seq<User>, i: int, used: Used, rounds: seq<Round>)
    requires FailsWithErrors(planner) && 0 <= i <= |turns| && RoundsFrom(planner, turns, i, used) == Rounds(rounds)
    ensures |rounds| == |turns| - i
    decreases |turns| - i
  {
    if i < |turns| {
      assert ErrsAt(planner, turns[i], i + 1, used);
      var r, after, rest := FirstRoundIs(planner, turns, i, used, rounds);
      OneRoundEach(planner, turns, i + 1, after, rest);
    }
  }

  /** Whatever is drawn, a plan is of such a course. */
  lemma DrawnPlanCanBe(tape: Tape, score: Score, pool: seq<User>, rounds: seq<Round>) returns (c: Course)
    requires AreTape(tape) && PlanOf(tape, score, pool) == Rounds(rounds)
    ensures c.rounds == rounds && CanBePlan(tape.daily, score, pool, c)
  {
    var canonical := CanonicalOrder(pool);
    PlanIs(tape, score, pool);
    TurnsCanBe(tape, canonical);
    var turns := TurnsOf(tape, canonical);
    PlannerErrs(tape, score, canonical);
    OneRoundEach(PlannerFor(tape, score, canonical), turns, 0, AtFirst(tape.daily, pool), rounds);
    assert rounds[0..] == rounds;
    c := RoundsCanFollow(tape, score, canonical, Course(turns, rounds, [], [AtFirst(tape.daily, pool)]), 0);
  }

  /** Every plan of such a course is drawn. */
  lemma EveryPlanIsDrawn(score: Score, pool: seq<User>, c: Course, base: Tape) returns (tape: Tape)
    requires AreTape(base) && CanBePlan(base.daily, score, pool, c)
    ensures AreTape(tape) && tape.daily == base.daily && PlanOf(tape, score, pool) == Rounds(c.rounds)
  {
    var canonical := CanonicalOrder(pool);
    var later := RoundsAreDrawn(score, canonical, c, 0, base);
    tape := TurnsAreDrawn(canonical, c.turns, later);
    RoundsAgree(tape, later, score, canonical, c.turns, 0, AtFirst(base.daily, pool));
    PlanIs(tape, score, pool);
    assert c.rounds[0..] == c.rounds;
  }

  ghost predicate IsDrawn(daily: bool, score: Score, pool: seq<User>, rounds: seq<Round>) {
    exists tape :: AreTape(tape) && tape.daily == daily && PlanOf(tape, score, pool) == Rounds(rounds)
  }

  function Zeros(daily: bool): Tape {
    Tape(daily, (k: int) => 0.0, (order: int) => ((k: int) => 0.0))
  }

  /** The plans that are drawn are exactly those of such courses. */
  lemma PlanIsDrawnIff(daily: bool, score: Score, pool: seq<User>, rounds: seq<Round>)
    ensures IsDrawn(daily, score, pool, rounds) <==> exists c: Course :: c.rounds == rounds && CanBePlan(daily, score, pool, c)
  {
    if IsDrawn(daily, score, pool, rounds) {
      var tape :| AreTape(tape) && tape.daily == daily && PlanOf(tape, score, pool) == Rounds(rounds);
      var c := DrawnPlanCanBe(tape, score, pool, rounds);
    }
    if c: Course :| c.rounds == rounds && CanBePlan(daily, score, pool, c) {
      DrawsMakeTape(Zeros(daily));
      var tape := EveryPlanIsDrawn(score, pool, c, Zeros(daily));
    }
  }

  // --------------------------------------------------------------------
  // No place gives the target away
  // --------------------------------------------------------------------

  function Reordered(rounds: seq<Round>, k: int, choices: seq<UserId>): seq<Round>
    requires 0 <= k < |rounds|
  {
    rounds[k := rounds[k].(choices := choices)]
  }

  /** A drawn plan with the choices of one round in any other order is drawn too. */
  lemma ChoicesInAnyOrder(
      daily: bool, score: Score, pool: seq<User>, rounds: seq<Round>, k: int, wanted: seq<UserId>)
    requires IsDrawn(daily, score, pool, rounds) && 0 <= k < |rounds| && multiset(wanted) == multiset(rounds[k].choices)
    ensures IsDrawn(daily, score, pool, Reordered(rounds, k, wanted))
  {
    var c := CourseOf(daily, score, pool, rounds);
    var d := c.(rounds := Reordered(rounds, k, wanted));
    ReorderedFollows(daily, score, CanonicalOrder(pool), c, d, k, wanted);
    PlanIsDrawnIff(daily, score, pool, d.rounds);
  }

  lemma CourseOf(daily: bool, score: Score, pool: seq<User>, rounds: seq<Round>) returns (c: Course)
    requires IsDrawn(daily, score, pool, rounds)
    ensures c.rounds == rounds && CanBePlan(daily, score, pool, c)
  {
    PlanIsDrawnIff(daily, score, pool, rounds);
    c :| c.rounds == rounds && CanBePlan(daily, score, pool, c);
  }

  lemma ReorderedFollows(
      daily: bool, score: Score, pool: seq<User>, c: Course, d: Course, k: int, wanted: seq<UserId>)
    requires CanFollow(daily, score, pool, c, |c.turns|) && 0 <= k < |c.rounds|
    requires multiset(wanted) == multiset(c.rounds[k].choices) && d == c.(rounds := Reordered(c.rounds, k, wanted))
    ensures CanFollow(daily, score, pool, d, |d.turns|)
  {
    forall l | 0 <= l < |c.turns| ensures RoundFits(daily, score, pool, d, l) {
      assert RoundFits(daily, score, pool, c, l);
    }
  }

  /** In every round of every drawn plan the target can stand at each of the four places, everything else unchanged. */
  lemma TargetAtEveryPlace(daily: bool, score: Score, pool: seq<User>, rounds: seq<Round>, k: int, place: int)
    returns (choices: seq<UserId>)
    requires IsDrawn(daily, score, pool, rounds) && 0 <= k < |rounds| && 0 <= place < CHOICES_PER_ROUND
    ensures multiset(choices) == multiset(rounds[k].choices) && |choices| == CHOICES_PER_ROUND
    ensures choices[place] == rounds[k].target
    ensures IsDrawn(daily, score, pool, Reordered(rounds, k, choices))
  {
    var c := CourseOf(daily, score, pool, rounds);
    var at := TargetIsThere(daily, score, CanonicalOrder(pool), c, k);
    choices := Swapped(rounds[k].choices, at, place);
    SwappedIsArrangement(rounds[k].choices, at, place);
    ChoicesInAnyOrder(daily, score, pool, rounds, k, choices);
  }

  lemma TargetIsThere(daily: bool, score: Score, pool: seq<User>, c: Course, k: int) returns (at: int)
    requires CanFollow(daily, score, pool, c, |c.turns|) && 0 <= k < |c.turns|
    ensures |c.rounds[k].choices| == CHOICES_PER_ROUND
    ensures 0 <= at < CHOICES_PER_ROUND && c.rounds[k].choices[at] == c.rounds[k].target
  {
    var target, used, users, r, after := FitsAt(daily, score, pool, c, k);
    SameElements(r.choices, [target.id] + Ids(users));
    assert ([target.id] + Ids(users))[0] in r.choices;
    at :| 0 <= at < |r.choices| && r.choices[at] == target.id;
  }
}

/**
 A daily challenge does not depend on the order in which rows arrive: neither the order of
 the pool, nor of any user's approved posts, nor of any user's categories.
 */
module PlanIndependence {
  import opened Distractors
  import opened RandomSource
  import opened RoundPlans
  import opened Sorting
  import opened Utf16

  /** f does not change how elements rank. */
  ghost predicate KeepsRank<T(!new)>(less: (T, T) -> bool, f: T -> T) {
    forall x, y :: less(f(x), f(y)) == less(x, y)
  }

  lemma {:induction false} InsertCommutes<T(!new)>(less: (T, T) -> bool, f: T -> T, x: T, s: seq<T>)
    requires KeepsRank(less, f)
    ensures Insert(less, f(x), Map(f, s)) == Map(f, Insert(less, x, s))
  {
    if s != [] {
      assert Map(f, s)[1..] == Map(f, s[1..]);
      InsertCommutes(less, f, x, s[1..]);
      MapCons(f, s[0], Insert(less, x, s[1..]));
      MapCons(f, x, s);
    }
  }

  lemma {:induction false} SortCommutes<T(!new)>(less: (T, T) -> bool, f: T -> T, s: seq<T>)
    requires KeepsRank(less, f)
    ensures Sort(less, Map(f, s)) == Map(f, Sort(less, s))
  {
    if s != [] {
      assert Map(f, s)[1..] == Map(f, s[1..]);
      SortCommutes(less, f, s[1..]);
      InsertCommutes(less, f, s[0], Sort(less, s[1..]));
    }
  }

  lemma {:induction false} PickCommutes<A, B>(f: A -> B, items: seq<A>, count: int, random: Source, at: int)
    requires IsSource(random)
    ensures Picked(Map(f, items), count, random, at) == Map(f, Picked(items, count, random, at))
    decreases |items|
  {
    if count > 0 && items != [] {
      var i := random(at, |items|);
      assert Without(Map(f, items), i) == Map(f, Without(items, i));
      PickCommutes(f, Without(items, i), count - 1, random, at + 1);
    }
  }

  // --------------------------------------------------------------------
  // Users up to the order of their lists
  // --------------------------------------------------------------------

  /** The user with both lists put in order. */
  function Normal(u: User): User {
    u.(categories := Ascending(u.categories), postIds := Ascending(u.postIds))
  }

  function NormalOf(): User -> User {
    (u: User) => Normal(u)
  }

  function NormalScoredOf(): Scored -> Scored {
    (s: Scored) => Scored(Normal(s.user), s.score)
  }

  function NormalAll(users: seq<User>): seq<User> {
    Map(NormalOf(), users)
  }

  lemma AscendingTwice(ids: seq<int>)
    ensures Ascending(Ascending(ids)) == Ascending(ids)
  {
    SortForgetsOrder(Below(), Ascending(ids), ids);
  }

  /** A score that looks at categories as a set, and not at posts. */
  ghost predicate IgnoresListOrder(score: Score) {
    forall t, c :: score(Normal(t), Normal(c)) == score(t, c)
  }

  lemma SimilarityIgnoresListOrder(lower: Text -> Text, closeness: (real, real) -> real, t: User, c: User)
    ensures SimilarityScore(lower, closeness, Normal(t), Normal(c)) == SimilarityScore(lower, closeness, t, c)
  {
    SameElements(Ascending(t.categories), t.categories);
    SameElements(Ascending(c.categories), c.categories);
    assert Elements(Ascending(t.categories)) == Elements(t.categories);
    assert Elements(Ascending(c.categories)) == Elements(c.categories);
  }

  // --------------------------------------------------------------------
  // Selection
  // --------------------------------------------------------------------

  lemma {:induction false} EligibleCommutes(target: User, pool: seq<User>, exclude: set<UserId>)
    ensures Eligible(Normal(target), NormalAll(pool), exclude) == NormalAll(Eligible(target, pool, exclude))
  {
    if pool != [] {
      assert NormalAll(pool)[1..] == NormalAll(pool[1..]);
      EligibleCommutes(target, pool[1..], exclude);
      MapCons(NormalOf(), pool[0], Eligible(target, pool[1..], exclude));
    }
  }

  lemma {:induction false} PositionCommutes(users: seq<User>, id: UserId)
    ensures PositionOf(NormalAll(users), id) == PositionOf(users, id)
  {
    if users != [] {
      assert NormalAll(users)[1..] == NormalAll(users[1..]);
      PositionCommutes(users[1..], id);
    }
  }

  lemma LastPut(users: seq<User>)
    requires users != []
    ensures Deduped(users) == Put(Deduped(users[..|users| - 1]), users[|users| - 1])
  {
  }

  lemma NormalTakes(users: seq<User>)
    requires users != []
    ensures var n := |users| - 1;
      |NormalAll(users)| == n + 1 && NormalAll(users)[..n] == NormalAll(users[..n]) && NormalAll(users)[n] == Normal(users[n])
  {
  }

  lemma {:induction false} DedupedCommutes(users: seq<User>)
    ensures Deduped(NormalAll(users)) == NormalAll(Deduped(users))
    decreases |users|
  {
    if users != [] {
      var n := |users| - 1;
      NormalTakes(users);
      LastPut(users);
      LastPut(NormalAll(users));
      DedupedCommutes(users[..n]);
      PutCommutes(Deduped(users[..n]), users[n]);
    }
  }

  lemma PutCommutes(users: seq<User>, u: User)
    ensures Put(NormalAll(users), Normal(u)) == NormalAll(Put(users, u))
  {
    PositionCommutes(users, u.id);
    var i := PositionOf(users, u.id);
    if i < |users| {
      NormalUpdates(users, i, u);
    } else {
      NormalAppends(users, u);
    }
  }

  lemma NormalUpdates(users: seq<User>, i: int, u: User)
    requires 0 <= i < |users|
    ensures NormalAll(users)[i := Normal(u)] == NormalAll(users[i := u])
  {
  }

  lemma NormalAppends(users: seq<User>, u: User)
    ensures NormalAll(users) + [Normal(u)] == NormalAll(users + [u])
  {
  }

  lemma OrderCommutes(score: Score, target: User, users: seq<User>)
    requires IgnoresListOrder(score)
    ensures DeterministicOrder(ScoredBy(score, Normal(target), NormalAll(users)))
         == Map(NormalScoredOf(), DeterministicOrder(ScoredBy(score, target, users)))
  {
    var scored := ScoredBy(score, target, users);
    assert ScoredBy(score, Normal(target), NormalAll(users)) == Map(NormalScoredOf(), scored);
    SortCommutes(HigherThenId(), NormalScoredOf(), scored);
  }

  function NormalSelection(s: Selection): Selection {
    match s
    case Insufficient => Insufficient
    case Chosen(users, used) => Chosen(NormalAll(users), used)
  }

  ghost function TopUsers(score: Score, target: User, users: seq<User>, count: int): seq<User>
    requires 0 <= count <= |users|
  {
    UsersOf(DeterministicOrder(ScoredBy(score, target, users))[..count])
  }

  lemma TopCommutes(score: Score, target: User, users: seq<User>, count: int)
    requires IgnoresListOrder(score) && 0 <= count <= |users|
    ensures TopUsers(score, Normal(target), NormalAll(users), count) == NormalAll(TopUsers(score, target, users, count))
  {
    OrderCommutes(score, target, users);
    var t := DeterministicOrder(ScoredBy(score, target, users));
    assert UsersOf(Map(NormalScoredOf(), t)[..count]) == NormalAll(UsersOf(t[..count]));
  }

  lemma SelectCommutes(
      score: Score, target: User, pool: seq<User>, count: int, exclude: set<UserId>, random: Source, at: int)
    requires IsSource(random) && count >= 0 && IgnoresListOrder(score)
    ensures Select(score, Normal(target), NormalAll(pool), count, exclude, Deterministic, random, at)
         == NormalSelection(Select(score, target, pool, count, exclude, Deterministic, random, at))
  {
    EligibleCommutes(target, pool, exclude);
    DedupedCommutes(Eligible(target, pool, exclude));
    var users := Candidates(target, pool, exclude);
    if |users| >= count {
      TopCommutes(score, target, users, count);
    }
  }

  lemma FallbackCommutes(
      score: Score, target: User, pool: seq<User>, count: int, usedAny: set<UserId>, usedTargets: set<UserId>,
      random: Source, at: int)
    requires IsSource(random) && count >= 0 && IgnoresListOrder(score)
    ensures SelectWithFallback(score, Normal(target), NormalAll(pool), count, usedAny, usedTargets, Deterministic, random, at)
         == NormalSelection(SelectWithFallback(score, target, pool, count, usedAny, usedTargets, Deterministic, random, at))
  {
    SelectCommutes(score, target, pool, count, usedAny, random, at);
    SelectCommutes(score, target, pool, count, usedTargets, random, at);
    SelectCommutes(score, target, pool, count, {}, random, at);
  }

  // --------------------------------------------------------------------
  // Rounds
  // --------------------------------------------------------------------

  lemma RoundIgnoresListOrder(
      choiceOrder: int -> Source, target: User, order: int, users: seq<User>, used: Used, random: Source, at: int)
    requires IsSource(random) && KindOk(Daily(choiceOrder))
    ensures RoundOf(Daily(choiceOrder), Normal(target), order, NormalAll(users), used, random, at)
         == RoundOf(Daily(choiceOrder), target, order, users, used, random, at)
  {
    AscendingTwice(target.postIds);
    assert Ids(NormalAll(users)) == Ids(users);
  }

  /** A step depends on the target only through its id, how many posts it has, and the round made of it. */
  lemma SameStep(kind: Kind, make: Maker, t: User, u: User, order: int, used: Used, s: Selection, q: Selection)
    requires t.id == u.id && |t.postIds| == |u.postIds| && (s.Chosen? <==> q.Chosen?)
    requires s.Chosen? ==> s.used == q.used && Ids(s.users) == Ids(q.users)
    requires s.Chosen? ==>
      var at := used.draws + MAX_POSTS_PER_ROUND + s.used;
      MadeBy(make, t, order, s.users, used, at) == MadeBy(make, u, order, q.users, used, at)
    ensures StepOf(kind, make, t, order, used, s) == StepOf(kind, make, u, order, used, q)
  {
  }

  lemma StepIgnoresListOrder(
      choiceOrder: int -> Source, target: User, order: int, used: Used, s: Selection, random: Source)
    requires IsSource(random) && KindOk(Daily(choiceOrder))
    ensures var kind := Daily(choiceOrder);
      StepOf(kind, MakerOf(kind, random), Normal(target), order, used, NormalSelection(s))
      == StepOf(kind, MakerOf(kind, random), target, order, used, s)
  {
    SortKeepsLength(target.postIds);
    if s.Chosen? {
      assert Ids(NormalAll(s.users)) == Ids(s.users);
      RoundIgnoresListOrder(
        choiceOrder, target, order, s.users, used, random, used.draws + MAX_POSTS_PER_ROUND + s.used);
    }
    var kind := Daily(choiceOrder);
    SameStep(kind, MakerOf(kind, random), Normal(target), target, order, used, NormalSelection(s), s);
  }

  lemma SortKeepsLength(ids: seq<int>)
    ensures |Ascending(ids)| == |ids|
  {
  }

  lemma DistractedIgnoresListOrder(
      score: Score, choiceOrder: int -> Source, target: User, pool: seq<User>, used: Used, random: Source)
    requires IsSource(random) && KindOk(Daily(choiceOrder)) && IgnoresListOrder(score)
    ensures Distracted(Daily(choiceOrder), score, Normal(target), NormalAll(pool), used, random)
         == NormalSelection(Distracted(Daily(choiceOrder), score, target, pool, used, random))
  {
    FallbackCommutes(score, target, pool, CHOICES_PER_ROUND - 1, used.any + {target.id}, used.targets + {target.id},
                     random, used.draws + MAX_POSTS_PER_ROUND);
    DailyDistracted(score, choiceOrder, target, pool, used, random);
    DailyDistracted(score, choiceOrder, Normal(target), NormalAll(pool), used, random);
  }

  lemma DailyDistracted(
      score: Score, choiceOrder: int -> Source, target: User, pool: seq<User>, used: Used, random: Source)
    requires IsSource(random)
    ensures Distracted(Daily(choiceOrder), score, target, pool, used, random)
         == SelectWithFallback(score, target, pool, CHOICES_PER_ROUND - 1, used.any + {target.id}, used.targets + {target.id},
                               Deterministic, random, used.draws + MAX_POSTS_PER_ROUND)
  {
  }

  lemma PlanningIgnoresListOrder(
      score: Score, choiceOrder: int -> Source, target: User, order: int, pool: seq<User>, used: Used, random: Source)
    requires IsSource(random) && KindOk(Daily(choiceOrder)) && IgnoresListOrder(score)
    ensures Planning(PlannerOf(Daily(choiceOrder), score, NormalAll(pool), random), Normal(target), order, used)
         == Planning(PlannerOf(Daily(choiceOrder), score, pool, random), target, order, used)
  {
    var kind := Daily(choiceOrder);
    var s := Distracted(kind, score, target, pool, used, random);
    DistractedIgnoresListOrder(score, choiceOrder, target, pool, used, random);
    PlanningIs(kind, score, target, order, pool, used, random, s);
    PlanningIs(kind, score, Normal(target), order, NormalAll(pool), used, random, NormalSelection(s));
    StepIgnoresListOrder(choiceOrder, target, order, used, s, random);
  }

  /** Two planners that plan alike for users that differ in the order of their lists only. */
  ghost predicate PlanAlike(p: Planner, q: Planner) {
    forall target, order, used :: AlikeAt(p, q, target, order, used)
  }

  ghost predicate AlikeAt(p: Planner, q: Planner, target: User, order: int, used: Used) {
    Planning(q, Normal(target), order, used) == Planning(p, target, order, used)
  }

  lemma {:induction false} RoundsIgnoreListOrder(p: Planner, q: Planner, turns: seq<User>, i: int, used: Used)
    requires PlanAlike(p, q) && 0 <= i <= |turns|
    ensures RoundsFrom(q, NormalAll(turns), i, used) == RoundsFrom(p, turns, i, used)
    decreases |turns| - i
  {
    if i < |turns| {
      assert AlikeAt(p, q, turns[i], i + 1, used);
      var step := Planning(p, turns[i], i + 1, used);
      if step.Made? {
        RoundsIgnoreListOrder(p, q, turns, i + 1, step.used);
      }
    }
  }

  lemma CanonicalCommutes(pool: seq<User>)
    ensures CanonicalOrder(NormalAll(pool)) == NormalAll(CanonicalOrder(pool))
  {
    SortCommutes(IdLess(), NormalOf(), pool);
  }

  lemma DailyIgnoresListOrder(score: Score, pool: seq<User>, random: Source, choiceOrder: int -> Source)
    requires IsSource(random) && KindOk(Daily(choiceOrder)) && IgnoresListOrder(score)
    ensures BuildDailyPlan(score, NormalAll(pool), random, choiceOrder) == BuildDailyPlan(score, pool, random, choiceOrder)
  {
    if |pool| >= DAILY_ROUNDS {
      var kind, canonical := Daily(choiceOrder), CanonicalOrder(pool);
      CanonicalCommutes(pool);
      PickCommutes(NormalOf(), canonical, DAILY_ROUNDS, random, 0);
      var p, q := PlannerOf(kind, score, canonical, random), PlannerOf(kind, score, NormalAll(canonical), random);
      forall target, order, used ensures AlikeAt(p, q, target, order, used) {
        PlanningIgnoresListOrder(score, choiceOrder, target, order, canonical, used, random);
      }
      RoundsIgnoreListOrder(p, q, DailyTurns(canonical, random), 0, Used({}, {}, DAILY_ROUNDS));
    }
  }

  lemma IdsRankApart(pool: seq<User>)
    requires DistinctIds(pool)
    ensures RanksApart(IdLess(), pool)
  {
  }

  lemma DailyIgnoresPoolOrder(score: Score, p: seq<User>, q: seq<User>, random: Source, choiceOrder: int -> Source)
    requires IsSource(random) && KindOk(Daily(choiceOrder)) && DistinctIds(p) && multiset(p) == multiset(q)
    ensures BuildDailyPlan(score, p, random, choiceOrder) == BuildDailyPlan(score, q, random, choiceOrder)
  {
    IdsRankApart(p);
    SortForgetsOrder(IdLess(), p, q);
    SameElements(p, q);
  }

  /**
   Permuting the pool, every user's approved posts and every user's categories, in any combination,
   leaves the daily challenge of a seed as it is.
   */
  lemma DailyPlanIgnoresEveryOrder(score: Score, p: seq<User>, q: seq<User>, random: Source, choiceOrder: int -> Source)
    requires IsSource(random) && KindOk(Daily(choiceOrder)) && IgnoresListOrder(score)
    requires DistinctIds(p) && multiset(NormalAll(p)) == multiset(NormalAll(q))
    ensures BuildDailyPlan(score, p, random, choiceOrder) == BuildDailyPlan(score, q, random, choiceOrder)
  {
    DailyIgnoresListOrder(score, p, random, choiceOrder);
    DailyIgnoresListOrder(score, q, random, choiceOrder);
    DailyIgnoresPoolOrder(score, NormalAll(p), NormalAll(q), random, choiceOrder);
  }

  ghost function SimilarityOf(lower: Text -> Text, closeness: (real, real) -> real): Score {
    (t: User, c: User) => SimilarityScore(lower, closeness, t, c)
  }

  /** In particular with the similarity score itself. */
  lemma SimilarityPlansIgnoreEveryOrder(
      lower: Text -> Text, closeness: (real, real) -> real, p: seq<User>, q: seq<User>, random: Source,
      choiceOrder: int -> Source)
    requires IsSource(random) && KindOk(Daily(choiceOrder))
    requires DistinctIds(p) && multiset(NormalAll(p)) == multiset(NormalAll(q))
    ensures BuildDailyPlan(SimilarityOf(lower, closeness), p, random, choiceOrder)
         == BuildDailyPlan(SimilarityOf(lower, closeness), q, random, choiceOrder)
  {
    var score := SimilarityOf(lower, closeness);
    forall t, c ensures score(Normal(t), Normal(c)) == score(t, c) {
      SimilarityIgnoresListOrder(lower, closeness, t, c);
    }
    DailyPlanIgnoresEveryOrder(score, p, q, random, choiceOrder);
  }
}

/**
 Which distractors a selection can come to (apps/guess/src/game/distractor.ts): exactly the rows of
 candidates that no candidate left out outranks, each for some draws.
 */
module DrawnSelections {
  import opened Distractors
  import opened RandomSource
  import opened Sorting

  /** u may stand before v: by score, and where no source is used by id among equal scores. */
  predicate Outranks(mode: Mode, score: Score, target: User, u: User, v: User) {
    || score(target, u) > score(target, v)
    || (score(target, u) == score(target, v) && (mode.Random? || u.id <= v.id))
  }

  /** Different candidates in rank order, none of them outranked by a candidate left out. */
  ghost predicate CanBeChosen(mode: Mode, score: Score, target: User, c: seq<User>, count: int, users: seq<User>) {
    && |users| == count && DistinctIds(users) && (forall u | u in users :: u in c)
    && (forall i, j | 0 <= i < j < count :: Outranks(mode, score, target, users[i], users[j]))
    && (forall u, v | u in users && v in c && v !in users :: Outranks(mode, score, target, u, v))
  }

  predicate InRank(mode: Mode, a: Scored, b: Scored) {
    a.score > b.score || (a.score == b.score && (mode.Random? || a.user.id <= b.user.id))
  }

  ghost predicate Ranked(mode: Mode, t: seq<Scored>) {
    forall i, j | 0 <= i < j < |t| :: InRank(mode, t[i], t[j])
  }

  lemma OrderIsRanked(mode: Mode, s: seq<Scored>, random: Source, at: int)
    requires IsSource(random)
    ensures Ranked(mode, InOrder(mode, s, random, at))
  {
    OrderKeepsAll(mode, s, random, at);
    if mode.Deterministic? {
      forall i, j | 0 <= i < j < |DeterministicOrder(s)|
        ensures InRank(mode, DeterministicOrder(s)[i], DeterministicOrder(s)[j])
      {
        DeterministicOrderBreaksTiesById(s, i, j);
      }
    }
  }

  lemma PlaceOf(t: seq<Scored>, count: int, u: User) returns (k: int)
    requires 0 <= count <= |t| && u in UsersOf(t[..count])
    ensures 0 <= k < count && t[k].user == u
  {
    k :| 0 <= k < |UsersOf(t[..count])| && UsersOf(t[..count])[k] == u;
  }

  /** What a selection comes to is such a row, for any source. */
  lemma SelectedCanBeChosen(
      mode: Mode, score: Score, target: User, pool: seq<User>, count: int, exclude: set<UserId>, random: Source, at: int)
    requires IsSource(random) && count >= 0
    requires Select(score, target, pool, count, exclude, mode, random, at).Chosen?
    ensures CanBeChosen(
      mode, score, target, Candidates(target, pool, exclude), count,
      Select(score, target, pool, count, exclude, mode, random, at).users)
  {
    var c := Candidates(target, pool, exclude);
    CandidatesAreEligible(target, pool, exclude);
    var scored := ScoredBy(score, target, c);
    OrderKeepsAll(mode, scored, random, at);
    OrderIsRanked(mode, scored, random, at);
    var t := InOrder(mode, scored, random, at);
    Arranged(score, target, c, t);
    FirstUsers(t, count);
    RankedAreChosen(mode, score, target, c, count, t);
  }

  lemma RankedAreChosen(mode: Mode, score: Score, target: User, c: seq<User>, count: int, t: seq<Scored>)
    requires 0 <= count <= |t| && Ranked(mode, t) && DistinctIds(UsersOf(t[..count]))
    requires forall k | 0 <= k < |t| :: t[k].user in c && t[k].score == score(target, t[k].user)
    requires forall k | 0 <= k < |c| :: Scored(c[k], score(target, c[k])) in t
    ensures CanBeChosen(mode, score, target, c, count, UsersOf(t[..count]))
  {
    var users := UsersOf(t[..count]);
    forall u | u in users ensures u in c {
      var k := PlaceOf(t, count, u);
    }
    forall i, j | 0 <= i < j < count ensures Outranks(mode, score, target, users[i], users[j]) {
      assert InRank(mode, t[i], t[j]);
    }
    forall u, v | u in users && v in c && v !in users ensures Outranks(mode, score, target, u, v) {
      var i := PlaceOf(t, count, u);
      var l :| 0 <= l < |c| && c[l] == v;
      var j :| 0 <= j < |t| && t[j] == Scored(v, score(target, v));
      if j < count {
        Among(t, count, j);
      }
      assert InRank(mode, t[i], t[j]);
    }
  }

  // --------------------------------------------------------------------
  // Every such row is drawn
  // --------------------------------------------------------------------

  function Others(c: seq<User>, users: seq<User>): seq<User> {
    if c == [] then []
    else if c[0] in users then Others(c[1..], users)
    else [c[0]] + Others(c[1..], users)
  }

  lemma {:induction false} OthersAre(c: seq<User>, users: seq<User>, x: User)
    ensures x in Others(c, users) <==> x in c && x !in users
  {
    if c != [] {
      OthersAre(c[1..], users, x);
      assert c == [c[0]] + c[1..];
    }
  }

  lemma {:induction false} OthersDiffer(c: seq<User>, users: seq<User>)
    requires Distinct(c)
    ensures Distinct(Others(c, users))
  {
    if c != [] {
      OthersDiffer(c[1..], users);
      OthersAre(c[1..], users, c[0]);
    }
  }

  lemma SameMembers<T>(s: seq<T>, t: seq<T>)
    requires Distinct(s) && Distinct(t) && forall x :: x in s <==> x in t
    ensures multiset(s) == multiset(t)
  {
    DistinctCounts(s);
    DistinctCounts(t);
    assert Elements(s) == Elements(t);
  }

  lemma DistinctIdsDiffer(users: seq<User>)
    requires DistinctIds(users)
    ensures Distinct(users)
  {
    forall i, j | 0 <= i < j < |users| ensures users[i] != users[j] {
      assert users[i].id != users[j].id;
    }
  }

  /** The chosen and the others are all candidates. */
  lemma ChosenAndOthers(c: seq<User>, users: seq<User>)
    requires DistinctIds(c) && DistinctIds(users) && forall u | u in users :: u in c
    ensures multiset(users + Others(c, users)) == multiset(c)
  {
    var rest := Others(c, users);
    DistinctIdsDiffer(c);
    DistinctIdsDiffer(users);
    OthersDiffer(c, users);
    forall x ensures x in users + rest <==> x in c {
      OthersAre(c, users, x);
    }
    forall k | 0 <= k < |rest| ensures rest[k] !in users {
      OthersAre(c, users, rest[k]);
    }
    SameMembers(users + rest, c);
  }

  function Scoring(score: Score, target: User): User -> Scored {
    (u: User) => Scored(u, score(target, u))
  }

  lemma ScoredIsMap(score: Score, target: User, users: seq<User>)
    ensures ScoredBy(score, target, users) == Map(Scoring(score, target), users)
  {
  }

  lemma ScoredArrangement(score: Score, target: User, users: seq<User>, rest: seq<User>, c: seq<User>)
    requires multiset(users + rest) == multiset(c)
    ensures multiset(ScoredBy(score, target, users) + ScoredBy(score, target, rest)) == multiset(ScoredBy(score, target, c))
  {
    MapCount(Scoring(score, target), users + rest, c);
    ScoredIsMap(score, target, c);
    ScoredIsMap(score, target, users + rest);
    assert ScoredBy(score, target, users + rest) == ScoredBy(score, target, users) + ScoredBy(score, target, rest);
  }

  ghost function RankingOf(mode: Mode): (Scored, Scored) -> bool {
    if mode.Deterministic? then HigherThenId() else HigherFirst()
  }

  lemma SortIsRanked(mode: Mode, s: seq<Scored>)
    ensures var t := Sort(RankingOf(mode), s); Ranked(mode, t) && forall x | x in t :: x in s
  {
    Rankings();
    SortIsSorted(RankingOf(mode), s);
    SameElements(Sort(RankingOf(mode), s), s);
    var t := Sort(RankingOf(mode), s);
    forall i, j | 0 <= i < j < |t| ensures InRank(mode, t[i], t[j]) {
      assert !RankingOf(mode)(t[j], t[i]);
    }
  }

  /** The row with the other candidates in rank order after it. */
  ghost function Completed(mode: Mode, score: Score, target: User, c: seq<User>, users: seq<User>): seq<Scored> {
    ScoredBy(score, target, users) + Sort(RankingOf(mode), ScoredBy(score, target, Others(c, users)))
  }

  lemma ChosenBeforeOthers(
      mode: Mode, score: Score, target: User, c: seq<User>, count: int, users: seq<User>, u: User, x: Scored)
    requires CanBeChosen(mode, score, target, c, count, users) && u in users
    requires x in ScoredBy(score, target, Others(c, users))
    ensures InRank(mode, Scored(u, score(target, u)), x)
  {
    var rest := ScoredBy(score, target, Others(c, users));
    var k :| 0 <= k < |rest| && rest[k] == x;
    OthersAre(c, users, Others(c, users)[k]);
    assert Outranks(mode, score, target, u, Others(c, users)[k]);
  }

  lemma RankedTogether(mode: Mode, first: seq<Scored>, second: seq<Scored>)
    requires Ranked(mode, first) && Ranked(mode, second)
    requires forall x, y | x in first && y in second :: InRank(mode, x, y)
    ensures Ranked(mode, first + second)
  {
    var t := first + second;
    forall i, j | 0 <= i < j < |t| ensures InRank(mode, t[i], t[j]) {
      if j < |first| {
        assert InRank(mode, first[i], first[j]);
      } else if i < |first| {
        assert first[i] in first && second[j - |first|] in second;
      } else {
        assert InRank(mode, second[i - |first|], second[j - |first|]);
      }
    }
  }

  lemma CompletedIsRanked(mode: Mode, score: Score, target: User, c: seq<User>, count: int, users: seq<User>)
    requires CanBeChosen(mode, score, target, c, count, users)
    ensures Ranked(mode, Completed(mode, score, target, c, users))
  {
    var rest := ScoredBy(score, target, Others(c, users));
    var first, sorted := ScoredBy(score, target, users), Sort(RankingOf(mode), rest);
    SortIsRanked(mode, rest);
    forall i, j | 0 <= i < j < |first| ensures InRank(mode, first[i], first[j]) {
      assert Outranks(mode, score, target, users[i], users[j]);
    }
    forall x, y | x in first && y in sorted ensures InRank(mode, x, y) {
      var i :| 0 <= i < |first| && first[i] == x;
      ChosenBeforeOthers(mode, score, target, c, count, users, users[i], y);
    }
    RankedTogether(mode, first, sorted);
  }

  lemma CompletedIsAll(mode: Mode, score: Score, target: User, c: seq<User>, users: seq<User>)
    requires DistinctIds(c) && DistinctIds(users) && forall u | u in users :: u in c
    ensures multiset(Completed(mode, score, target, c, users)) == multiset(ScoredBy(score, target, c))
    ensures |c| >= |users|
  {
    var rest := Others(c, users);
    ChosenAndOthers(c, users);
    SameElements(users + rest, c);
    ScoredArrangement(score, target, users, rest, c);
    SortedAfter(ScoredBy(score, target, users), RankingOf(mode), ScoredBy(score, target, rest));
  }

  lemma SortedAfter(first: seq<Scored>, less: (Scored, Scored) -> bool, rest: seq<Scored>)
    ensures multiset(first + Sort(less, rest)) == multiset(first + rest)
  {
  }

  /** Where no source is used there is one ranked arrangement. */
  lemma DeterministicOrderIs(score: Score, target: User, c: seq<User>, t: seq<Scored>)
    requires DistinctIds(c) && Ranked(Deterministic, t) && multiset(t) == multiset(ScoredBy(score, target, c))
    ensures DeterministicOrder(ScoredBy(score, target, c)) == t
  {
    var s := ScoredBy(score, target, c);
    Rankings();
    SortIsSorted(HigherThenId(), s);
    SameElements(s, t);
    SameElements(s, Sort(HigherThenId(), s));
    forall i, j | 0 <= i < j < |t| ensures !HigherThenId()(t[j], t[i]) {
      assert InRank(Deterministic, t[i], t[j]);
    }
    forall x, y | x in t && y in t ensures HigherThenId()(x, y) || HigherThenId()(y, x) || x == y {
      var k :| 0 <= k < |s| && s[k] == x;
      var l :| 0 <= l < |s| && s[l] == y;
      assert c[k].id == c[l].id ==> k == l;
    }
    SortedIsUnique(HigherThenId(), t, Sort(HigherThenId(), s));
  }

  /** How many draws a selection from these candidates takes. */
  function SelectionDraws(mode: Mode, score: Score, target: User, c: seq<User>): int {
    if mode.Deterministic? then 0 else DrawsUsed(ScoredBy(score, target, c))
  }

  lemma SelectionDrawsAreSome(mode: Mode, score: Score, target: User, c: seq<User>)
    ensures SelectionDraws(mode, score, target, c) >= 0
  {
    DrawsAreSome(Sort(HigherFirst(), ScoredBy(score, target, c)), 0);
  }

  lemma OrderIsDrawn(mode: Mode, score: Score, target: User, c: seq<User>, t: seq<Scored>, base: Draws, at: int)
    returns (draws: Draws)
    requires DistinctIds(c) && Ranked(mode, t) && multiset(t) == multiset(ScoredBy(score, target, c)) && AreDraws(base)
    ensures AreDraws(draws) && SameOutside(draws, base, at, at + SelectionDraws(mode, score, target, c))
    ensures IsSource(Scaled(draws)) && InOrder(mode, ScoredBy(score, target, c), Scaled(draws), at) == t
  {
    if mode.Deterministic? {
      draws := base;
      ScaledIsSource(draws);
      DeterministicOrderIs(score, target, c, t);
    } else {
      forall i, j | 0 <= i < j < |t| ensures t[i].score >= t[j].score {
        assert InRank(mode, t[i], t[j]);
      }
      draws := EveryTieOrderIsDrawn(ScoredBy(score, target, c), t, base, at);
    }
  }

  /** Every row of candidates that none left out outranks is selected for some draws, that differ from any given ones only there. */
  lemma EverySelectionIsDrawn(
      mode: Mode, score: Score, target: User, pool: seq<User>, count: int, exclude: set<UserId>, users: seq<User>,
      base: Draws, at: int) returns (draws: Draws)
    requires count >= 0 && AreDraws(base)
    requires CanBeChosen(mode, score, target, Candidates(target, pool, exclude), count, users)
    ensures AreDraws(draws) && IsSource(Scaled(draws))
    ensures var used := SelectionDraws(mode, score, target, Candidates(target, pool, exclude));
      && SameOutside(draws, base, at, at + used)
      && Select(score, target, pool, count, exclude, mode, Scaled(draws), at) == Chosen(users, used)
  {
    var c := Candidates(target, pool, exclude);
    CandidatesAreEligible(target, pool, exclude);
    CompletedIsRanked(mode, score, target, c, count, users);
    CompletedIsAll(mode, score, target, c, users);
    var t := Completed(mode, score, target, c, users);
    draws := OrderIsDrawn(mode, score, target, c, t, base, at);
    assert UsersOf(t[..count]) == users;
  }

  // --------------------------------------------------------------------
  // A selection depends on its own draws alone
  // --------------------------------------------------------------------

  /** The same draws from one on. */
  ghost predicate AgreeFrom(r: Draws, q: Draws, lo: int) {
    forall k | lo <= k :: r(k) == q(k)
  }

  lemma SelectAgrees(
      mode: Mode, score: Score, target: User, pool: seq<User>, count: int, exclude: set<UserId>, r: Draws, q: Draws, at: int)
    requires count >= 0 && AreDraws(r) && AreDraws(q) && AgreeFrom(r, q, at)
    ensures IsSource(Scaled(r)) && IsSource(Scaled(q))
    ensures Select(score, target, pool, count, exclude, mode, Scaled(r), at)
         == Select(score, target, pool, count, exclude, mode, Scaled(q), at)
  {
    ScaledIsSource(r);
    ScaledIsSource(q);
    if mode.Random? {
      RandomOrderAgrees(ScoredBy(score, target, Candidates(target, pool, exclude)), r, q, at);
    }
  }

  // --------------------------------------------------------------------
  // Fallback
  // --------------------------------------------------------------------

  /** Who the selection leaves out, once it has fallen back far enough. */
  ghost function LeftOut(
      target: User, pool: seq<User>, count: int, usedAny: set<UserId>, usedTargets: set<UserId>): set<UserId> {
    if Supply(target, pool, usedAny) >= count then usedAny
    else if Supply(target, pool, usedTargets) >= count then usedTargets
    else {}
  }

  lemma FallbackIsOneSelection(
      score: Score, target: User, pool: seq<User>, count: int, usedAny: set<UserId>, usedTargets: set<UserId>,
      mode: Mode, random: Source, at: int)
    requires IsSource(random) && count >= 0
    ensures SelectWithFallback(score, target, pool, count, usedAny, usedTargets, mode, random, at)
         == Select(score, target, pool, count, LeftOut(target, pool, count, usedAny, usedTargets), mode, random, at)
  {
  }
}

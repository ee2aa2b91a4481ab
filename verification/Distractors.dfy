/**
 Choosing distractors (apps/guess/src/game/distractor.ts): similarity scores over the reals,
 the two orders by score, and the selection with its fallback tiers.
 */
module Distractors {
  import opened Options
  import opened EditDistance
  import opened RandomSource
  import opened Sorting
  import opened Utf16

  type UserId = int
  type PostId = int
  type Category = int

  datatype Period = Unknown | Active(first: int, last: int)

  /** A user eligible as target or distractor; ids are compared by a total order only. */
  datatype User = User(
    id: UserId, name: Text, approvedPosts: int, words: real, quality: real,
    categories: seq<Category>, period: Period, postIds: seq<PostId>)

  type Score = (User, User) -> real

  // --------------------------------------------------------------------
  // Similarity
  // --------------------------------------------------------------------

  ghost function CategorySimilarity(a: seq<Category>, b: seq<Category>): real {
    var union := Elements(a) + Elements(b);
    if |union| == 0 then 1.0 else |Elements(a) * Elements(b)| as real / |union| as real
  }

  function Least(a: int, b: int): int { if a < b then a else b }

  function Greatest(a: int, b: int): int { if a < b then b else a }

  function PeriodSimilarity(a: Period, b: Period): real {
    if a.Unknown? || b.Unknown? then 0.5
    else
      var overlap := Greatest(0, Least(a.last, b.last) - Greatest(a.first, b.first));
      var span := Greatest(1, Greatest(a.last, b.last) - Least(a.first, b.first));
      overlap as real / span as real
  }

  function Abs(x: real): real { if x < 0.0 then -x else x }

  /** `lower` stands for toLowerCase and `closeness` for the logarithmic closeness ratio. */
  ghost function SimilarityScore(lower: Text -> Text, closeness: (real, real) -> real, t: User, c: User): real {
    0.3 * UsernameSimilarity(lower, t.name, c.name)
    + 0.2 * CategorySimilarity(t.categories, c.categories)
    + 0.15 * closeness(t.approvedPosts as real, c.approvedPosts as real)
    + 0.15 * closeness(t.words, c.words)
    + 0.1 * (1.0 - Abs(t.quality - c.quality))
    + 0.1 * PeriodSimilarity(t.period, c.period)
  }

  lemma CategorySimilarityLaws(a: seq<Category>, b: seq<Category>)
    ensures 0.0 <= CategorySimilarity(a, b) <= 1.0
    ensures CategorySimilarity(a, b) == CategorySimilarity(b, a)
    ensures CategorySimilarity(a, b) == 1.0 <==> Elements(a) == Elements(b)
    ensures CategorySimilarity(a, b) == 0.0 <==> Elements(a) * Elements(b) == {} && Elements(a) != Elements(b)
  {
    var s, t := Elements(a), Elements(b);
    assert s + t == t + s && s * t == t * s;
    assert s * t <= s + t;
    SmallerPart(s * t, s + t);
    if |s + t| > 0 {
      QuotientSign(|s * t|, |s + t|);
      var q := CategorySimilarity(a, b);
      assert q * |s + t| as real == |s * t| as real;
      if s == t {
        assert s * t == s + t;
      }
      ZeroQuotient(|s * t| as real, |s + t| as real);
      assert |s * t| == 0 <==> s * t == {};
      assert s == t ==> s * t == s + t;
      if q == 1.0 {
        SubsetOfSameSize(s * t, s + t);
        assert s <= s * t && t <= s * t;
      }
    } else {
      assert s + t == {};
      assert s == {} == t;
    }
  }

  lemma ZeroQuotient(x: real, n: real)
    requires n > 0.0
    ensures x / n == 0.0 <==> x == 0.0
  {
    assert (x / n) * n == x;
  }

  lemma SmallerPart<T>(s: set<T>, t: set<T>)
    requires s <= t
    ensures |s| <= |t|
  {
    assert t == s + (t - s);
  }

  lemma PeriodSimilarityLaws(a: Period, b: Period)
    requires (a.Active? ==> a.first <= a.last) && (b.Active? ==> b.first <= b.last)
    ensures 0.0 <= PeriodSimilarity(a, b) <= 1.0
    ensures PeriodSimilarity(a, b) == PeriodSimilarity(b, a)
    ensures PeriodSimilarity(a, b) == 1.0 <==> a.Active? && a == b && a.first < a.last
    ensures PeriodSimilarity(a, b) == 0.0 <==> a.Active? && b.Active? && Least(a.last, b.last) <= Greatest(a.first, b.first)
  {
    if a.Active? && b.Active? {
      var overlap := Greatest(0, Least(a.last, b.last) - Greatest(a.first, b.first));
      var span := Greatest(1, Greatest(a.last, b.last) - Least(a.first, b.first));
      QuotientSign(overlap, span);
      ZeroQuotient(overlap as real, span as real);
      ZeroQuotient((overlap - span) as real, span as real);
      assert (overlap as real / span as real - 1.0) * span as real == (overlap - span) as real;
    }
  }

  lemma TimesItsDivisor(x: int, n: int)
    requires n > 0
    ensures x as real / n as real * n as real == x as real
  {
  }

  /** Categories that are all among the other's count for their share of them. */
  lemma FewerCategoriesCountByShare(a: seq<Category>, b: seq<Category>)
    requires Elements(a) <= Elements(b) && b != []
    ensures CategorySimilarity(a, b) * |Elements(b)| as real == |Elements(a)| as real
  {
    assert b[0] in Elements(b);
    assert Elements(a) + Elements(b) == Elements(b) && Elements(a) * Elements(b) == Elements(a);
    var x, n := |Elements(a)|, |Elements(b)|;
    assert CategorySimilarity(a, b) == x as real / n as real;
    TimesItsDivisor(x, n);
  }

  /** A period inside the other counts for its share of it. */
  lemma ShorterPeriodCountsByShare(a: Period, b: Period)
    requires a.Active? && b.Active? && b.first <= a.first <= a.last <= b.last && b.first < b.last
    ensures PeriodSimilarity(a, b) * (b.last - b.first) as real == (a.last - a.first) as real
    ensures PeriodSimilarity(a, Unknown) == PeriodSimilarity(Unknown, a) == PeriodSimilarity(Unknown, Unknown) == 0.5
  {
    TimesItsDivisor(a.last - a.first, b.last - b.first);
  }

  /** The score is in [0, 1] whenever closeness and quality are and periods run forwards. */
  lemma ScoreInRange(lower: Text -> Text, closeness: (real, real) -> real, t: User, c: User)
    requires forall x, y :: 0.0 <= closeness(x, y) <= 1.0
    requires 0.0 <= t.quality <= 1.0 && 0.0 <= c.quality <= 1.0
    requires (t.period.Active? ==> t.period.first <= t.period.last) && (c.period.Active? ==> c.period.first <= c.period.last)
    ensures 0.0 <= SimilarityScore(lower, closeness, t, c) <= 1.0
  {
    UsernameSimilarityLaws(lower, t.name, c.name);
    CategorySimilarityLaws(t.categories, c.categories);
    PeriodSimilarityLaws(t.period, c.period);
  }

  /** Where five of the six parts agree fully, the score falls short of 1 by the weight of the sixth times what it lacks. */
  lemma PartsWeigh(lower: Text -> Text, closeness: (real, real) -> real, t: User, c: User)
    ensures var name, categories := UsernameSimilarity(lower, t.name, c.name), CategorySimilarity(t.categories, c.categories);
      var posts, words := closeness(t.approvedPosts as real, c.approvedPosts as real), closeness(t.words, c.words);
      var period, score := PeriodSimilarity(t.period, c.period), SimilarityScore(lower, closeness, t, c);
      var sameQuality := t.quality == c.quality;
      && (categories == posts == words == period == 1.0 && sameQuality ==> 1.0 - score == 0.3 * (1.0 - name))
      && (name == posts == words == period == 1.0 && sameQuality ==> 1.0 - score == 0.2 * (1.0 - categories))
      && (name == categories == words == period == 1.0 && sameQuality ==> 1.0 - score == 0.15 * (1.0 - posts))
      && (name == categories == posts == period == 1.0 && sameQuality ==> 1.0 - score == 0.15 * (1.0 - words))
      && (name == categories == posts == words == period == 1.0 && t.quality <= c.quality ==>
            1.0 - score == 0.1 * (c.quality - t.quality))
      && (name == categories == posts == words == period == 1.0 && c.quality <= t.quality ==>
            1.0 - score == 0.1 * (t.quality - c.quality))
      && (name == categories == posts == words == 1.0 && sameQuality ==> 1.0 - score == 0.1 * (1.0 - period))
  {
  }

  // --------------------------------------------------------------------
  // The two orders
  // --------------------------------------------------------------------

  datatype Scored = Scored(user: User, score: real)

  function HigherFirst(): (Scored, Scored) -> bool {
    (a: Scored, b: Scored) => a.score > b.score
  }

  function HigherThenId(): (Scored, Scored) -> bool {
    (a: Scored, b: Scored) => if a.score != b.score then a.score > b.score else a.user.id < b.user.id
  }

  function DeterministicOrder(s: seq<Scored>): seq<Scored> {
    Sort(HigherThenId(), s)
  }

  /** The end of the run of equal scores that begins at i, at least j. */
  function RunEnd(s: seq<Scored>, i: int, j: int): (end: int)
    requires 0 <= i < j <= |s|
    ensures j <= end <= |s|
    decreases |s| - j
  {
    if j < |s| && s[j].score == s[i].score then RunEnd(s, i, j + 1) else j
  }

  /** How a group is shuffled, given how many draws were used before. */
  type Shuffler = (seq<Scored>, int) -> seq<Scored>

  ghost function ShuffledBy(f: Shuffler, group: seq<Scored>, at: int): seq<Scored> {
    f(group, at)
  }

  ghost function ShufflerOf(random: Source): Shuffler
    requires IsSource(random)
  {
    (group: seq<Scored>, at: int) => Shuffled(group, random, at)
  }

  ghost predicate Rearranges(f: Shuffler) {
    forall group, at :: RearrangesAt(f, group, at)
  }

  ghost predicate RearrangesAt(f: Shuffler, group: seq<Scored>, at: int) {
    multiset(ShuffledBy(f, group, at)) == multiset(group)
  }

  lemma ShufflerRearranges(random: Source) returns (f: Shuffler)
    requires IsSource(random)
    ensures f == ShufflerOf(random) && Rearranges(f)
  {
    f := ShufflerOf(random);
    forall group, at ensures RearrangesAt(f, group, at) {
      ShuffledKeepsAll(group, random, at);
    }
  }

  /** From i on, each run of equal scores shuffled by itself. */
  ghost function RunsShuffled(s: seq<Scored>, i: int, f: Shuffler, at: int): seq<Scored>
    requires 0 <= i <= |s|
    decreases |s| - i
  {
    if i == |s| then []
    else
      var j := RunEnd(s, i, i + 1);
      ShuffledBy(f, s[i..j], at) + RunsShuffled(s, j, f, at + (j - i) - 1)
  }

  /** How many draws that takes. */
  function DrawsFrom(s: seq<Scored>, i: int): int
    requires 0 <= i <= |s|
    decreases |s| - i
  {
    if i == |s| then 0
    else
      var j := RunEnd(s, i, i + 1);
      (j - i) - 1 + DrawsFrom(s, j)
  }

  ghost function RandomOrder(s: seq<Scored>, random: Source, at: int): seq<Scored>
    requires IsSource(random)
  {
    RunsShuffled(Sort(HigherFirst(), s), 0, ShufflerOf(random), at)
  }

  function DrawsUsed(s: seq<Scored>): int {
    DrawsFrom(Sort(HigherFirst(), s), 0)
  }

  lemma Rankings()
    ensures IsRanking(HigherFirst()) && IsRanking(HigherThenId())
  {
  }

  /** Scores never increase along the sequence. */
  predicate Descending(s: seq<Scored>) {
    forall i, j | 0 <= i < j < |s| :: s[i].score >= s[j].score
  }

  lemma DeterministicOrderIsDescending(s: seq<Scored>)
    ensures Descending(DeterministicOrder(s)) && multiset(DeterministicOrder(s)) == multiset(s)
  {
    Rankings();
    SortIsSorted(HigherThenId(), s);
    var t := DeterministicOrder(s);
    forall i, j | 0 <= i < j < |t| ensures t[i].score >= t[j].score {
      assert !HigherThenId()(t[j], t[i]);
    }
  }

  lemma {:induction false} RunIsEqual(s: seq<Scored>, i: int, j: int)
    requires 0 <= i < j <= |s| && forall k | i <= k < j :: s[k].score == s[i].score
    ensures forall k | i <= k < RunEnd(s, i, j) :: s[k].score == s[i].score
    decreases |s| - j
  {
    if j < |s| && s[j].score == s[i].score {
      RunIsEqual(s, i, j + 1);
    }
  }

  lemma Halves(s: seq<Scored>, i: int, j: int)
    requires 0 <= i <= j <= |s|
    ensures multiset(s[i..]) == multiset(s[i..j]) + multiset(s[j..])
  {
    assert s[i..] == s[i..j] + s[j..];
  }

  lemma HalvesArranged(s: seq<Scored>, i: int, j: int, a: seq<Scored>, b: seq<Scored>)
    requires 0 <= i <= j <= |s| && multiset(a) == multiset(s[i..j]) && multiset(b) == multiset(s[j..])
    ensures multiset(a + b) == multiset(s[i..])
  {
    Halves(s, i, j);
    JoinCounts(a, b, s[i..j], s[j..], s[i..]);
  }

  lemma {:induction false} RunsShuffledIsArrangement(s: seq<Scored>, i: int, f: Shuffler, at: int)
    requires Rearranges(f) && 0 <= i <= |s|
    ensures multiset(RunsShuffled(s, i, f, at)) == multiset(s[i..])
    decreases |s| - i
  {
    if i < |s| {
      var a, j, after := FirstRun(s, i, f, at);
      RunsShuffledIsArrangement(s, j, f, after);
      HalvesArranged(s, i, j, a, RunsShuffled(s, j, f, after));
    }
  }

  /** The run that begins at i, shuffled, and where the rest goes on. */
  lemma FirstRun(s: seq<Scored>, i: int, f: Shuffler, at: int) returns (a: seq<Scored>, j: int, after: int)
    requires Rearranges(f) && 0 <= i < |s|
    ensures i < j <= |s| && j == RunEnd(s, i, i + 1)
    ensures multiset(a) == multiset(s[i..j]) && RunsShuffled(s, i, f, at) == a + RunsShuffled(s, j, f, after)
  {
    j := RunEnd(s, i, i + 1);
    a, after := ShuffledBy(f, s[i..j], at), at + (j - i) - 1;
    RunRearranged(s, i, j, f, at);
    RunsShuffledStep(s, i, f, at);
  }

  lemma RunRearranged(s: seq<Scored>, i: int, j: int, f: Shuffler, at: int)
    requires Rearranges(f) && 0 <= i <= j <= |s|
    ensures multiset(ShuffledBy(f, s[i..j], at)) == multiset(s[i..j])
  {
    assert RearrangesAt(f, s[i..j], at);
  }

  lemma RunsShuffledStep(s: seq<Scored>, i: int, f: Shuffler, at: int)
    requires 0 <= i < |s|
    ensures var j := RunEnd(s, i, i + 1);
      RunsShuffled(s, i, f, at) == ShuffledBy(f, s[i..j], at) + RunsShuffled(s, j, f, at + (j - i) - 1)
  {
  }

  /** A run and what follows it, each rearranged, are descending if what follows is. */
  lemma Rearranged(s: seq<Scored>, i: int, a: seq<Scored>, b: seq<Scored>)
    requires Descending(s) && 0 <= i < |s|
    requires multiset(a) == multiset(s[i..RunEnd(s, i, i + 1)])
    requires multiset(b) == multiset(s[RunEnd(s, i, i + 1)..]) && Descending(b)
    ensures Descending(a + b)
  {
    var j := RunEnd(s, i, i + 1);
    RunIsEqual(s, i, i + 1);
    AllOf(s[i..j], a, s[i].score);
    forall k | 0 <= k < |s[j..]| ensures s[j..][k].score <= s[i].score {
      assert s[i].score >= s[j + k].score;
    }
    NoneAbove(s[j..], b, s[i].score);
    Joined(a, b, s[i].score);
  }

  lemma {:induction false} RunsShuffledIsDescending(s: seq<Scored>, i: int, f: Shuffler, at: int)
    requires Rearranges(f) && Descending(s) && 0 <= i <= |s|
    ensures Descending(RunsShuffled(s, i, f, at))
    decreases |s| - i
  {
    if i < |s| {
      var a, j, after := FirstRun(s, i, f, at);
      RunsShuffledIsDescending(s, j, f, after);
      RunsShuffledIsArrangement(s, j, f, after);
      Rearranged(s, i, a, RunsShuffled(s, j, f, after));
    }
  }

  lemma AllOf(s: seq<Scored>, t: seq<Scored>, score: real)
    requires multiset(s) == multiset(t) && forall k | 0 <= k < |s| :: s[k].score == score
    ensures forall x | x in t :: x.score == score
  {
    SameElements(s, t);
  }

  lemma NoneAbove(s: seq<Scored>, t: seq<Scored>, score: real)
    requires multiset(s) == multiset(t) && forall k | 0 <= k < |s| :: s[k].score <= score
    ensures forall x | x in t :: x.score <= score
  {
    SameElements(s, t);
  }

  lemma Joined(a: seq<Scored>, b: seq<Scored>, score: real)
    requires forall x | x in a :: x.score == score
    requires forall y | y in b :: y.score <= score
    requires Descending(b)
    ensures Descending(a + b)
  {
    var s := a + b;
    forall i, j | 0 <= i < j < |s| ensures s[i].score >= s[j].score {
      if i < |a| {
        assert s[i] in a;
        if j < |a| {
          assert s[j] in a;
        } else {
          assert s[j] == b[j - |a|] && s[j] in b;
        }
      } else {
        assert s[i] == b[i - |a|] && s[j] == b[j - |a|];
      }
    }
  }

  /** For any source, the random order is a score-descending arrangement of its input. */
  lemma RandomOrderIsDescending(s: seq<Scored>, random: Source, at: int)
    requires IsSource(random)
    ensures Descending(RandomOrder(s, random, at)) && multiset(RandomOrder(s, random, at)) == multiset(s)
  {
    Rankings();
    SortIsSorted(HigherFirst(), s);
    var t := Sort(HigherFirst(), s);
    forall i, j | 0 <= i < j < |t| ensures t[i].score >= t[j].score {
      assert !HigherFirst()(t[j], t[i]);
    }
    var f := ShufflerRearranges(random);
    RunsShuffledIsDescending(t, 0, f, at);
    RunsShuffledIsArrangement(t, 0, f, at);
    assert t[0..] == t;
  }

  function Scores(s: seq<Scored>): seq<real> {
    Map((x: Scored) => x.score, s)
  }

  /** Two descending arrangements of the same scored users show the same sequence of scores. */
  lemma DescendingScoresAgree(s: seq<Scored>, t: seq<Scored>)
    requires Descending(s) && Descending(t) && multiset(s) == multiset(t)
    ensures Scores(s) == Scores(t)
  {
    MapCount((x: Scored) => x.score, s, t);
    var down := (x: real, y: real) => x > y;
    SortedIsUnique(down, Scores(s), Scores(t));
  }

  // --------------------------------------------------------------------
  // Every order among ties is drawn
  // --------------------------------------------------------------------

  lemma {:induction false} DrawsAreSome(s: seq<Scored>, i: int)
    requires 0 <= i <= |s|
    ensures DrawsFrom(s, i) >= 0
    decreases |s| - i
  {
    if i < |s| {
      DrawsAreSome(s, RunEnd(s, i, i + 1));
    }
  }

  /** The runs as some draws order them. */
  ghost function RunsBy(s: seq<Scored>, i: int, r: Draws, at: int): seq<Scored>
    requires 0 <= i <= |s| && IsSource(Scaled(r))
  {
    RunsShuffled(s, i, ShufflerOf(Scaled(r)), at)
  }

  /** How many users from i on have the score of the one before them. */
  function Ties(s: seq<Scored>, i: int): int
    requires 0 <= i <= |s|
    decreases |s| - i
  {
    if i + 1 >= |s| then 0 else (if s[i + 1].score == s[i].score then 1 else 0) + Ties(s, i + 1)
  }

  lemma {:induction false} TiesOfRun(s: seq<Scored>, i: int, j: int)
    requires 0 <= i < j <= |s| && (forall k | i <= k < j :: s[k].score == s[i].score)
    requires j < |s| ==> s[j].score != s[i].score
    ensures Ties(s, i) == (j - i) - 1 + Ties(s, j)
    decreases j - i
  {
    if i + 1 < j {
      TiesOfRun(s, i + 1, j);
    }
  }

  /** One draw for each user that ties with the one before: none is skipped, none taken twice. */
  lemma {:induction false} OneDrawForEachTie(s: seq<Scored>, i: int)
    requires 0 <= i <= |s|
    ensures DrawsFrom(s, i) == Ties(s, i)
    decreases |s| - i
  {
    if i < |s| {
      var j := RunEnd(s, i, i + 1);
      RunStops(s, i, i + 1);
      TiesOfRun(s, i, j);
      OneDrawForEachTie(s, j);
    }
  }

  lemma OneRunShuffled(s: seq<Scored>, i: int, j: int, r: Draws, at: int)
    requires 0 <= i < |s| && j == RunEnd(s, i, i + 1) && IsSource(Scaled(r))
    ensures RunsBy(s, i, r, at) == ShuffledFrom(s[i..j], j - i - 1, Scaled(r), at) + RunsBy(s, j, r, at + (j - i) - 1)
  {
    RunsShuffledStep(s, i, ShufflerOf(Scaled(r)), at);
  }

  /** The order of the runs depends on their own draws alone. */
  lemma {:induction false} RunsAgree(s: seq<Scored>, i: int, r: Draws, q: Draws, at: int)
    requires 0 <= i <= |s| && AreDraws(r) && AreDraws(q) && AgreeOn(r, q, at, at + DrawsFrom(s, i))
    ensures IsSource(Scaled(r)) && IsSource(Scaled(q)) && RunsBy(s, i, r, at) == RunsBy(s, i, q, at)
    decreases |s| - i
  {
    ScaledIsSource(r);
    ScaledIsSource(q);
    if i < |s| {
      var j := RunEnd(s, i, i + 1);
      DrawsAreSome(s, j);
      RunsAgree(s, j, r, q, at + (j - i) - 1);
      FirstRunAgrees(s, i, j, r, q, at);
    }
  }

  lemma FirstRunAgrees(s: seq<Scored>, i: int, j: int, r: Draws, q: Draws, at: int)
    requires 0 <= i < |s| && j == RunEnd(s, i, i + 1) && AreDraws(r) && AreDraws(q) && AgreeOn(r, q, at, at + j - i - 1)
    requires IsSource(Scaled(r)) && IsSource(Scaled(q))
    requires RunsBy(s, j, r, at + (j - i) - 1) == RunsBy(s, j, q, at + (j - i) - 1)
    ensures RunsBy(s, i, r, at) == RunsBy(s, i, q, at)
  {
    OneRunShuffled(s, i, j, r, at);
    OneRunShuffled(s, i, j, q, at);
    ShuffledAgree(s[i..j], j - i - 1, r, q, at);
  }

  /** The first n all have that score, the others a lower one. */
  predicate TopsOut(t: seq<Scored>, n: int, top: real) {
    0 <= n <= |t| && forall k | 0 <= k < |t| :: if k < n then t[k].score == top else t[k].score < top
  }

  lemma TopsAreCounted(t: seq<Scored>, n: int, top: real, x: Scored)
    requires TopsOut(t, n, top)
    ensures multiset(t[..n])[x] == if x.score == top then multiset(t)[x] else 0
    ensures multiset(t[n..])[x] == if x.score == top then 0 else multiset(t)[x]
  {
    assert t == t[..n] + t[n..];
    assert multiset(t)[x] == multiset(t[..n])[x] + multiset(t[n..])[x];
    if x.score == top {
      assert x !in t[n..];
    } else {
      assert x !in t[..n];
    }
  }

  lemma TopsAgree(s: seq<Scored>, t: seq<Scored>, n: int, top: real)
    requires TopsOut(s, n, top) && TopsOut(t, n, top) && multiset(s) == multiset(t)
    ensures multiset(s[..n]) == multiset(t[..n]) && multiset(s[n..]) == multiset(t[n..])
  {
    forall x ensures multiset(s[..n])[x] == multiset(t[..n])[x] && multiset(s[n..])[x] == multiset(t[n..])[x] {
      TopsAreCounted(s, n, top, x);
      TopsAreCounted(t, n, top, x);
    }
  }

  lemma {:induction false} RunStops(s: seq<Scored>, i: int, j: int)
    requires 0 <= i < j <= |s| && forall k | i <= k < j :: s[k].score == s[i].score
    ensures var end := RunEnd(s, i, j);
      && (forall k | i <= k < end :: s[k].score == s[i].score) && (end < |s| ==> s[end].score != s[i].score)
    decreases |s| - j
  {
    if j < |s| && s[j].score == s[i].score {
      RunStops(s, i, j + 1);
    }
  }

  /** The tail that begins with a run has its scores on top. */
  lemma RunTops(s: seq<Scored>, i: int)
    requires Descending(s) && 0 <= i < |s|
    ensures TopsOut(s[i..], RunEnd(s, i, i + 1) - i, s[i].score)
  {
    RunStops(s, i, i + 1);
  }

  lemma SameTops(s: seq<Scored>, t: seq<Scored>, n: int, top: real)
    requires TopsOut(s, n, top) && Scores(s) == Scores(t)
    ensures TopsOut(t, n, top)
  {
    forall k | 0 <= k < |t| ensures if k < n then t[k].score == top else t[k].score < top {
      assert Scores(t)[k] == Scores(s)[k];
    }
  }

  lemma TopsSplit(tail: seq<Scored>, wanted: seq<Scored>, n: int, top: real)
    returns (first: seq<Scored>, others: seq<Scored>)
    requires Descending(tail) && Descending(wanted) && multiset(tail) == multiset(wanted) && TopsOut(tail, n, top)
    ensures wanted == first + others && Descending(others)
    ensures multiset(tail[..n]) == multiset(first) && multiset(tail[n..]) == multiset(others)
  {
    DescendingScoresAgree(tail, wanted);
    SameTops(tail, wanted, n, top);
    TopsAgree(tail, wanted, n, top);
    first, others := wanted[..n], wanted[n..];
  }

  lemma TailDescends(s: seq<Scored>, i: int)
    requires Descending(s) && 0 <= i <= |s|
    ensures Descending(s[i..])
  {
  }

  /** A descending arrangement of a tail splits as the tail does: into its first run and the others. */
  lemma RunSplits(s: seq<Scored>, i: int, j: int, wanted: seq<Scored>) returns (first: seq<Scored>, others: seq<Scored>)
    requires Descending(s) && Descending(wanted) && 0 <= i < |s| && multiset(s[i..]) == multiset(wanted)
    requires j == RunEnd(s, i, i + 1)
    ensures wanted == first + others && Descending(others)
    ensures multiset(s[i..j]) == multiset(first) && multiset(s[j..]) == multiset(others)
  {
    RunTops(s, i);
    TailDescends(s, i);
    TailParts(s, i, j);
    first, others := TopsSplit(s[i..], wanted, j - i, s[i].score);
  }

  lemma TailParts(s: seq<Scored>, i: int, j: int)
    requires 0 <= i <= j <= |s|
    ensures s[i..][..j - i] == s[i..j] && s[i..][j - i..] == s[j..]
  {
  }

  lemma NothingLeftToReach(s: seq<Scored>, wanted: seq<Scored>)
    requires multiset(s[|s|..]) == multiset(wanted)
    ensures wanted == []
  {
    SameElements(s[|s|..], wanted);
  }

  lemma {:induction false} RunsReach(s: seq<Scored>, i: int, wanted: seq<Scored>, base: Draws, at: int) returns (draws: Draws)
    requires Descending(s) && Descending(wanted) && 0 <= i <= |s| && multiset(s[i..]) == multiset(wanted) && AreDraws(base)
    ensures AreDraws(draws) && SameOutside(draws, base, at, at + DrawsFrom(s, i)) && IsSource(Scaled(draws))
    ensures RunsBy(s, i, draws, at) == wanted
    decreases |s| - i
  {
    if i == |s| {
      draws := base;
      ScaledIsSource(draws);
      NothingLeftToReach(s, wanted);
    } else {
      var j := RunEnd(s, i, i + 1);
      var first, others := RunSplits(s, i, j, wanted);
      var rest := RunsReach(s, j, others, base, at + (j - i) - 1);
      draws := RunReached(s, i, j, first, others, rest, base, at);
    }
  }

  /** Draws for the runs after the first are completed by draws for the first. */
  lemma RunReached(
      s: seq<Scored>, i: int, j: int, first: seq<Scored>, others: seq<Scored>, rest: Draws, base: Draws, at: int)
    returns (draws: Draws)
    requires 0 <= i < |s| && j == RunEnd(s, i, i + 1) && AreDraws(rest) && IsSource(Scaled(rest))
    requires multiset(s[i..j]) == multiset(first)
    requires RunsBy(s, j, rest, at + (j - i) - 1) == others
    requires SameOutside(rest, base, at + (j - i) - 1, at + (j - i) - 1 + DrawsFrom(s, j))
    ensures AreDraws(draws) && SameOutside(draws, base, at, at + DrawsFrom(s, i)) && IsSource(Scaled(draws))
    ensures RunsBy(s, i, draws, at) == first + others
  {
    draws := GroupReached(s[i..j], first, rest, at);
    DrawsAreSome(s, j);
    OutsideBoth(draws, rest, base, at, at + (j - i) - 1, at + DrawsFrom(s, i));
    FirstRunIs(s, i, j, first, draws, rest, at);
  }

  lemma FirstRunIs(s: seq<Scored>, i: int, j: int, first: seq<Scored>, r: Draws, rest: Draws, at: int)
    requires 0 <= i < |s| && j == RunEnd(s, i, i + 1) && AreDraws(r) && AreDraws(rest)
    requires SameOutside(r, rest, at, at + (j - i) - 1)
    requires IsSource(Scaled(r)) && ShuffledFrom(s[i..j], (j - i) - 1, Scaled(r), at) == first
    ensures IsSource(Scaled(rest)) && RunsBy(s, i, r, at) == first + RunsBy(s, j, rest, at + (j - i) - 1)
  {
    LaterRunsAgree(s, j, r, rest, at + (j - i) - 1);
    OneRunShuffled(s, i, j, r, at);
  }

  lemma LaterRunsAgree(s: seq<Scored>, i: int, r: Draws, q: Draws, at: int)
    requires 0 <= i <= |s| && AreDraws(r) && AreDraws(q) && forall k | at <= k :: r(k) == q(k)
    ensures IsSource(Scaled(r)) && IsSource(Scaled(q)) && RunsBy(s, i, r, at) == RunsBy(s, i, q, at)
  {
    RunsAgree(s, i, r, q, at);
  }

  lemma GroupReached(group: seq<Scored>, wanted: seq<Scored>, rest: Draws, at: int) returns (draws: Draws)
    requires multiset(group) == multiset(wanted) && AreDraws(rest) && group != []
    ensures AreDraws(draws) && SameOutside(draws, rest, at, at + |group| - 1) && IsSource(Scaled(draws))
    ensures ShuffledFrom(group, |group| - 1, Scaled(draws), at) == wanted
  {
    SameElements(group, wanted);
    draws := EveryArrangementIsShuffled(group, wanted, |group| - 1, rest, at);
  }

  /**
   Among users of equal score every order is drawn: each arrangement by descending score is the random order for some
   draws, that differ from any given ones only there.
   */
  lemma EveryTieOrderIsDrawn(s: seq<Scored>, wanted: seq<Scored>, base: Draws, at: int) returns (draws: Draws)
    requires multiset(s) == multiset(wanted) && Descending(wanted) && AreDraws(base)
    ensures AreDraws(draws) && SameOutside(draws, base, at, at + DrawsUsed(s)) && IsSource(Scaled(draws))
    ensures RandomOrder(s, Scaled(draws), at) == wanted
  {
    var sorted := Sort(HigherFirst(), s);
    SortedIsDescending(s);
    assert sorted[0..] == sorted;
    draws := RunsReach(sorted, 0, wanted, base, at);
  }

  lemma SortedIsDescending(s: seq<Scored>)
    ensures Descending(Sort(HigherFirst(), s)) && multiset(Sort(HigherFirst(), s)) == multiset(s)
  {
    Rankings();
    SortIsSorted(HigherFirst(), s);
  }

  lemma RandomOrderAgrees(s: seq<Scored>, r: Draws, q: Draws, at: int)
    requires AreDraws(r) && AreDraws(q) && AgreeOn(r, q, at, at + DrawsUsed(s))
    ensures IsSource(Scaled(r)) && IsSource(Scaled(q))
    ensures RandomOrder(s, Scaled(r), at) == RandomOrder(s, Scaled(q), at)
  {
    RunsAgree(Sort(HigherFirst(), s), 0, r, q, at);
  }

  /** Equal scores are in the order of the users' ids where no source is used. */
  lemma DeterministicOrderBreaksTiesById(s: seq<Scored>, i: int, j: int)
    requires 0 <= i < j < |DeterministicOrder(s)|
    ensures var t := DeterministicOrder(s);
      t[i].score > t[j].score || (t[i].score == t[j].score && t[i].user.id <= t[j].user.id)
  {
    Rankings();
    SortIsSorted(HigherThenId(), s);
  }

  /** The inner loop: where the run of equal scores that begins at i ends. */
  method EndOfRun(sorted: seq<Scored>, i: int) returns (j: int)
    requires 0 <= i < |sorted|
    ensures j == RunEnd(sorted, i, i + 1)
  {
    j := i;
    while j < |sorted| && sorted[j].score == sorted[i].score
      invariant i <= j <= |sorted|
      invariant j > i ==> RunEnd(sorted, i, i + 1) == RunEnd(sorted, i, j)
    {
      j := j + 1;
    }
  }

  method ShuffledCopy(group: seq<Scored>, random: Source, at: int, ghost f: Shuffler) returns (result: seq<Scored>)
    requires IsSource(random) && f == ShufflerOf(random)
    ensures result == ShuffledBy(f, group, at)
  {
    var a := new Scored[|group|](k requires 0 <= k < |group| => group[k]);
    assert a[..] == group;
    ShuffleInPlace(a, random, at);
    result := a[..];
  }

  method RandomlyOrdered(scored: seq<Scored>, random: Source, at: int) returns (result: seq<Scored>, used: int)
    requires IsSource(random)
    ensures result == RandomOrder(scored, random, at) && used == DrawsUsed(scored)
  {
    result, used := ShuffleRuns(Sort(HigherFirst(), scored), random, at, ShufflerOf(random));
  }

  method ShuffleRuns(sorted: seq<Scored>, random: Source, at: int, ghost f: Shuffler)
    returns (result: seq<Scored>, used: int)
    requires IsSource(random) && f == ShufflerOf(random)
    ensures result == RunsShuffled(sorted, 0, f, at) && used == DrawsFrom(sorted, 0)
  {
    ghost var whole, left := RunsShuffled(sorted, 0, f, at), RunsShuffled(sorted, 0, f, at);
    result, used := [], 0;
    var i := 0;
    while i < |sorted|
      invariant 0 <= i <= |sorted|
      invariant whole == result + left && left == RunsShuffled(sorted, i, f, at + used)
      invariant DrawsFrom(sorted, 0) == used + DrawsFrom(sorted, i)
    {
      var group, j;
      group, j, left := TakeRun(sorted, i, random, at + used, f, left);
      Regroup(result, group, left);
      result, used, i := result + group, used + (j - i) - 1, j;
    }
  }

  /** One turn of the outer loop; `left` is what is still to come. */
  method TakeRun(sorted: seq<Scored>, i: int, random: Source, at: int, ghost f: Shuffler, ghost left: seq<Scored>)
    returns (group: seq<Scored>, j: int, ghost after: seq<Scored>)
    requires IsSource(random) && f == ShufflerOf(random) && 0 <= i < |sorted|
    requires left == RunsShuffled(sorted, i, f, at)
    ensures i < j <= |sorted| && left == group + after && after == RunsShuffled(sorted, j, f, at + (j - i) - 1)
    ensures DrawsFrom(sorted, i) == (j - i) - 1 + DrawsFrom(sorted, j)
  {
    j := EndOfRun(sorted, i);
    group := ShuffledCopy(sorted[i..j], random, at, f);
    after := RunsShuffled(sorted, j, f, at + (j - i) - 1);
  }

  lemma Regroup(s: seq<Scored>, t: seq<Scored>, u: seq<Scored>)
    ensures s + (t + u) == (s + t) + u
  {
  }

  // --------------------------------------------------------------------
  // Selection
  // --------------------------------------------------------------------

  datatype Mode = Deterministic | Random

  datatype Selection = Insufficient | Chosen(users: seq<User>, used: int)

  function Eligible(target: User, pool: seq<User>, exclude: set<UserId>): seq<User> {
    if pool == [] then []
    else
      var rest := Eligible(target, pool[1..], exclude);
      if pool[0].id != target.id && pool[0].id !in exclude then [pool[0]] + rest else rest
  }

  function PositionOf(users: seq<User>, id: UserId): (i: int)
    ensures 0 <= i <= |users| && (i < |users| ==> users[i].id == id)
    ensures forall k | 0 <= k < i :: users[k].id != id
  {
    if users == [] || users[0].id == id then 0 else 1 + PositionOf(users[1..], id)
  }

  /** Setting a key of a JavaScript Map: an old key keeps its place and takes the new value. */
  function Put(users: seq<User>, u: User): seq<User> {
    var i := PositionOf(users, u.id);
    if i < |users| then users[i := u] else users + [u]
  }

  function Deduped(users: seq<User>): seq<User> {
    if users == [] then [] else Put(Deduped(users[..|users| - 1]), users[|users| - 1])
  }

  function ScoredBy(score: Score, target: User, users: seq<User>): (r: seq<Scored>)
    ensures |r| == |users| && forall i | 0 <= i < |users| :: r[i] == Scored(users[i], score(target, users[i]))
  {
    seq(|users|, i requires 0 <= i < |users| => Scored(users[i], score(target, users[i])))
  }

  function UsersOf(s: seq<Scored>): (r: seq<User>)
    ensures |r| == |s| && forall i | 0 <= i < |s| :: r[i] == s[i].user
  {
    seq(|s|, i requires 0 <= i < |s| => s[i].user)
  }

  ghost function InOrder(mode: Mode, s: seq<Scored>, random: Source, at: int): seq<Scored>
    requires IsSource(random)
  {
    if mode.Deterministic? then DeterministicOrder(s) else RandomOrder(s, random, at)
  }

  function Candidates(target: User, pool: seq<User>, exclude: set<UserId>): seq<User> {
    Deduped(Eligible(target, pool, exclude))
  }

  ghost function Select(
      score: Score, target: User, pool: seq<User>, count: int, exclude: set<UserId>, mode: Mode, random: Source, at: int)
    : Selection
    requires IsSource(random) && count >= 0
  {
    var users := Candidates(target, pool, exclude);
    if |users| < count then Insufficient
    else
      var scored := ScoredBy(score, target, users);
      OrderKeepsAll(mode, scored, random, at);
      Chosen(UsersOf(InOrder(mode, scored, random, at)[..count]),
             if mode.Deterministic? then 0 else DrawsUsed(scored))
  }

  lemma OrderKeepsAll(mode: Mode, s: seq<Scored>, random: Source, at: int)
    requires IsSource(random)
    ensures var t := InOrder(mode, s, random, at);
      Descending(t) && multiset(t) == multiset(s) && |t| == |s|
  {
    if mode.Deterministic? {
      DeterministicOrderIsDescending(s);
    } else {
      RandomOrderIsDescending(s, random, at);
    }
    SameElements(s, InOrder(mode, s, random, at));
  }

  predicate DistinctIds(users: seq<User>) {
    forall i, j | 0 <= i < j < |users| :: users[i].id != users[j].id
  }

  predicate HasId(users: seq<User>, id: UserId) {
    exists k | 0 <= k < |users| :: users[k].id == id
  }

  lemma {:induction false} DedupedDistinct(users: seq<User>)
    ensures DistinctIds(Deduped(users))
  {
    if users != [] {
      DedupedDistinct(users[..|users| - 1]);
    }
  }

  lemma {:induction false} DedupedWithin(users: seq<User>)
    ensures forall k | 0 <= k < |Deduped(users)| :: Deduped(users)[k] in users
  {
    if users != [] {
      DedupedWithin(users[..|users| - 1]);
    }
  }

  lemma PutHas(users: seq<User>, u: User, id: UserId)
    ensures HasId(Put(users, u), id) <==> HasId(users, id) || u.id == id
  {
    var i, after := PositionOf(users, u.id), Put(users, u);
    if u.id == id {
      assert after[i].id == id;
    } else {
      if HasId(users, id) {
        var k :| 0 <= k < |users| && users[k].id == id;
        assert after[k].id == id;
      }
      if HasId(after, id) {
        var k :| 0 <= k < |after| && after[k].id == id;
        assert users[k].id == id;
      }
    }
  }

  lemma {:induction false} DedupedHas(users: seq<User>, id: UserId)
    ensures HasId(Deduped(users), id) <==> HasId(users, id)
  {
    if users != [] {
      var n := |users| - 1;
      DedupedHas(users[..n], id);
      PutHas(Deduped(users[..n]), users[n], id);
      if HasId(users, id) && users[n].id != id {
        var k :| 0 <= k < |users| && users[k].id == id;
        assert users[..n][k].id == id;
      }
      if HasId(users[..n], id) {
        var k :| 0 <= k < n && users[..n][k].id == id;
        assert users[k].id == id;
      }
      assert users[n].id == id ==> HasId(users, id);
    }
  }

  /** The last user of the list with that id. */
  ghost predicate IsLastOf(users: seq<User>, u: User) {
    exists k | 0 <= k < |users| :: users[k] == u && NoneAfter(users, k)
  }

  predicate NoneAfter(users: seq<User>, k: int)
    requires 0 <= k < |users|
  {
    forall l | k < l < |users| :: users[l].id != users[k].id
  }

  /** What putting a user in leaves of the others. */
  lemma PutLeaves(before: seq<User>, last: User, u: User)
    requires DistinctIds(before) && u in Put(before, last) && u != last
    ensures u in before && u.id != last.id
  {
    var after, i := Put(before, last), PositionOf(before, last.id);
    var m :| 0 <= m < |after| && after[m] == u;
    assert m != i;
    assert before[m] == u;
  }

  lemma StaysLast(init: seq<User>, last: User, u: User)
    requires IsLastOf(init, u) && u.id != last.id
    ensures IsLastOf(init + [last], u)
  {
    var users := init + [last];
    var k :| 0 <= k < |init| && init[k] == u && NoneAfter(init, k);
    forall l | k < l < |users| ensures users[l].id != users[k].id {
      assert l < |init| ==> users[l] == init[l];
    }
    assert users[k] == u && NoneAfter(users, k);
  }

  lemma NewIsLast(init: seq<User>, last: User)
    ensures IsLastOf(init + [last], last)
  {
    assert (init + [last])[|init|] == last && NoneAfter(init + [last], |init|);
  }

  /** Of several users with one id the last one counts, as in a JavaScript Map. */
  lemma {:induction false} DedupedAreLast(users: seq<User>, u: User)
    requires u in Deduped(users)
    ensures IsLastOf(users, u)
    decreases |users|
  {
    var n := |users| - 1;
    var init, last := users[..n], users[n];
    assert users == init + [last];
    if u == last {
      NewIsLast(init, last);
    } else {
      DedupedDistinct(init);
      PutLeaves(Deduped(init), last, u);
      DedupedAreLast(init, u);
      StaysLast(init, last, u);
    }
  }

  lemma {:induction false} DistinctStay(users: seq<User>)
    requires DistinctIds(users)
    ensures Deduped(users) == users
  {
    if users != [] {
      DistinctStay(users[..|users| - 1]);
    }
  }

  lemma {:induction false} EligibleMembers(target: User, pool: seq<User>, exclude: set<UserId>, u: User)
    ensures u in Eligible(target, pool, exclude) <==> u in pool && u.id != target.id && u.id !in exclude
    ensures |Eligible(target, pool, exclude)| <= |pool|
  {
    if pool != [] {
      EligibleMembers(target, pool[1..], exclude, u);
      assert pool == [pool[0]] + pool[1..];
    }
  }

  /** The ids a selection may choose from. */
  ghost function EligibleIds(target: User, pool: seq<User>, exclude: set<UserId>): set<UserId> {
    (set u | u in pool :: u.id) - {target.id} - exclude
  }

  function Ids(users: seq<User>): (r: seq<UserId>)
    ensures |r| == |users| && forall i | 0 <= i < |users| :: r[i] == users[i].id
  {
    seq(|users|, i requires 0 <= i < |users| => users[i].id)
  }

  lemma CandidatesWithin(target: User, pool: seq<User>, exclude: set<UserId>)
    ensures var c := Candidates(target, pool, exclude);
      DistinctIds(c) && forall k | 0 <= k < |c| :: c[k] in pool && c[k].id != target.id && c[k].id !in exclude
  {
    var e, c := Eligible(target, pool, exclude), Candidates(target, pool, exclude);
    DedupedDistinct(e);
    DedupedWithin(e);
    forall k | 0 <= k < |c| ensures c[k] in pool && c[k].id != target.id && c[k].id !in exclude {
      EligibleMembers(target, pool, exclude, c[k]);
    }
  }

  lemma CandidatesHave(target: User, pool: seq<User>, exclude: set<UserId>, id: UserId)
    requires id in EligibleIds(target, pool, exclude)
    ensures id in Elements(Ids(Candidates(target, pool, exclude)))
  {
    var e, c := Eligible(target, pool, exclude), Candidates(target, pool, exclude);
    var u :| u in pool && u.id == id;
    EligibleMembers(target, pool, exclude, u);
    var k :| 0 <= k < |e| && e[k] == u;
    assert e[k].id == id;
    DedupedHas(e, id);
    var l :| 0 <= l < |c| && c[l].id == id;
    assert Ids(c)[l] == id;
  }

  /** The candidates are one user of the pool for each eligible id. */
  lemma CandidatesAreEligible(target: User, pool: seq<User>, exclude: set<UserId>)
    ensures var c := Candidates(target, pool, exclude);
      && DistinctIds(c) && |c| == |EligibleIds(target, pool, exclude)|
      && (forall k | 0 <= k < |c| :: c[k] in pool && c[k].id != target.id && c[k].id !in exclude)
  {
    var c := Candidates(target, pool, exclude);
    CandidatesWithin(target, pool, exclude);
    DistinctCounts(Ids(c));
    forall id ensures id in Elements(Ids(c)) <==> id in EligibleIds(target, pool, exclude) {
      if id in EligibleIds(target, pool, exclude) {
        CandidatesHave(target, pool, exclude, id);
      }
      if id in Elements(Ids(c)) {
        var l :| 0 <= l < |c| && Ids(c)[l] == id;
        assert c[l] in pool;
      }
    }
    assert Elements(Ids(c)) == EligibleIds(target, pool, exclude);
  }

  /** A selection succeeds exactly when enough different users are eligible. */
  lemma SelectSucceedsIff(
      score: Score, target: User, pool: seq<User>, count: int, exclude: set<UserId>, mode: Mode, random: Source, at: int)
    requires IsSource(random) && count >= 0
    ensures Select(score, target, pool, count, exclude, mode, random, at).Chosen?
       <==> |EligibleIds(target, pool, exclude)| >= count
  {
    CandidatesAreEligible(target, pool, exclude);
  }

  /** An arrangement of the candidates, each with its score. */
  lemma Arranged(score: Score, target: User, c: seq<User>, t: seq<Scored>)
    requires DistinctIds(c) && multiset(t) == multiset(ScoredBy(score, target, c))
    ensures |t| == |c| && DistinctIds(UsersOf(t))
    ensures forall k | 0 <= k < |t| :: t[k].user in c && t[k].score == score(target, t[k].user)
    ensures forall k | 0 <= k < |c| :: Scored(c[k], score(target, c[k])) in t
  {
    var scored := ScoredBy(score, target, c);
    SameElements(scored, t);
    forall k | 0 <= k < |t| ensures t[k].user in c && t[k].score == score(target, t[k].user) {
      assert t[k] in scored;
    }
    forall k | 0 <= k < |c| ensures Scored(c[k], score(target, c[k])) in t {
      assert scored[k] in scored;
    }
    forall i, j | 0 <= i < j < |scored| ensures scored[i] != scored[j] {
      assert c[i].id != c[j].id;
    }
    PartOfDistinct(t, scored);
    forall i, j | 0 <= i < j < |t| ensures t[i].user.id != t[j].user.id {
      assert t[i] in scored && t[j] in scored;
      var k :| 0 <= k < |c| && scored[k] == t[i];
      var l :| 0 <= l < |c| && scored[l] == t[j];
      assert k != l;
      assert c[k].id != c[l].id;
    }
  }

  /** What is selected: as many as asked for, all different, from the pool, never the target or an excluded user. */
  lemma SelectedAreEligible(
      score: Score, target: User, pool: seq<User>, count: int, exclude: set<UserId>, mode: Mode, random: Source, at: int)
    requires IsSource(random) && count >= 0
    requires Select(score, target, pool, count, exclude, mode, random, at).Chosen?
    ensures var users := Select(score, target, pool, count, exclude, mode, random, at).users;
      && |users| == count && DistinctIds(users)
      && (forall k | 0 <= k < count :: users[k] in pool && users[k].id != target.id && users[k].id !in exclude)
  {
    var c := Candidates(target, pool, exclude);
    CandidatesAreEligible(target, pool, exclude);
    var scored := ScoredBy(score, target, c);
    OrderKeepsAll(mode, scored, random, at);
    var t := InOrder(mode, scored, random, at);
    Arranged(score, target, c, t);
    FirstUsers(t, count);
  }

  lemma FirstUsers(t: seq<Scored>, count: int)
    requires 0 <= count <= |t| && DistinctIds(UsersOf(t))
    ensures var users := UsersOf(t[..count]);
      |users| == count && DistinctIds(users) && forall k | 0 <= k < count :: users[k] == t[k].user
  {
    forall i, j | 0 <= i < j < count ensures t[i].user.id != t[j].user.id {
      assert UsersOf(t)[i].id != UsersOf(t)[j].id;
    }
  }

  lemma Among(t: seq<Scored>, count: int, k: int)
    requires 0 <= k < count <= |t|
    ensures t[k].user in UsersOf(t[..count])
  {
    assert UsersOf(t[..count])[k] == t[k].user;
  }

  /** No candidate left out outscores one selected. */
  lemma SelectedAreTop(
      score: Score, target: User, pool: seq<User>, count: int, exclude: set<UserId>, mode: Mode, random: Source, at: int,
      u: User, v: User)
    requires IsSource(random) && count >= 0
    requires Select(score, target, pool, count, exclude, mode, random, at).Chosen?
    requires u in Select(score, target, pool, count, exclude, mode, random, at).users
    requires v in Candidates(target, pool, exclude)
    requires v !in Select(score, target, pool, count, exclude, mode, random, at).users
    ensures score(target, u) >= score(target, v)
  {
    var c := Candidates(target, pool, exclude);
    CandidatesAreEligible(target, pool, exclude);
    var scored := ScoredBy(score, target, c);
    OrderKeepsAll(mode, scored, random, at);
    var t := InOrder(mode, scored, random, at);
    Arranged(score, target, c, t);
    var users := UsersOf(t[..count]);
    var i :| 0 <= i < count && users[i] == u;
    var k :| 0 <= k < |t| && t[k] == Scored(v, score(target, v));
    if k < count {
      Among(t, count, k);
    }
    assert t[i].score >= t[k].score;
  }

  /** Both modes select users of the same scores, position by position, whatever the source draws. */
  lemma ModesAgreeOnScores(
      score: Score, target: User, pool: seq<User>, count: int, exclude: set<UserId>, random: Source, at: int, k: int)
    requires IsSource(random) && 0 <= k < count
    requires |Candidates(target, pool, exclude)| >= count
    ensures var det := Select(score, target, pool, count, exclude, Deterministic, random, at);
      var ran := Select(score, target, pool, count, exclude, Random, random, at);
      && det.Chosen? && ran.Chosen? && |det.users| == |ran.users| == count
      && score(target, det.users[k]) == score(target, ran.users[k])
  {
    var c := Candidates(target, pool, exclude);
    CandidatesAreEligible(target, pool, exclude);
    var scored := ScoredBy(score, target, c);
    var d, r := InOrder(Deterministic, scored, random, at), InOrder(Random, scored, random, at);
    OrderKeepsAll(Deterministic, scored, random, at);
    OrderKeepsAll(Random, scored, random, at);
    Arranged(score, target, c, d);
    Arranged(score, target, c, r);
    DescendingScoresAgree(d, r);
    assert Scores(d)[k] == Scores(r)[k];
  }

  // --------------------------------------------------------------------
  // Falling back
  // --------------------------------------------------------------------

  ghost function SelectWithFallback(
      score: Score, target: User, pool: seq<User>, count: int, usedAny: set<UserId>, usedTargets: set<UserId>,
      mode: Mode, random: Source, at: int)
    : Selection
    requires IsSource(random) && count >= 0
  {
    var first := Select(score, target, pool, count, usedAny, mode, random, at);
    if first.Chosen? then first
    else
      var second := Select(score, target, pool, count, usedTargets, mode, random, at);
      if second.Chosen? then second else Select(score, target, pool, count, {}, mode, random, at)
  }

  /** How many different users are eligible. */
  ghost function Supply(target: User, pool: seq<User>, exclude: set<UserId>): int {
    |Candidates(target, pool, exclude)|
  }

  lemma SupplyShrinks(target: User, pool: seq<User>, exclude: set<UserId>)
    ensures Supply(target, pool, exclude) == |EligibleIds(target, pool, exclude)| <= Supply(target, pool, {})
  {
    CandidatesAreEligible(target, pool, exclude);
    CandidatesAreEligible(target, pool, {});
    SmallerPart(EligibleIds(target, pool, exclude), EligibleIds(target, pool, {}));
  }

  /** `count` different users of the pool other than the target and outside `exclude`. */
  predicate SelectedFrom(target: User, pool: seq<User>, count: int, exclude: set<UserId>, users: seq<User>) {
    && |users| == count && DistinctIds(users)
    && (forall k | 0 <= k < count :: users[k] in pool && users[k].id != target.id && users[k].id !in exclude)
  }

  /**
   The three tiers: users not used yet if there are enough, else users that were no target yet, else anyone.
   It fails exactly when the pool has too few users other than the target.
   */
  lemma FallbackTiers(
      score: Score, target: User, pool: seq<User>, count: int, usedAny: set<UserId>, usedTargets: set<UserId>,
      mode: Mode, random: Source, at: int) returns (s: Selection)
    requires IsSource(random) && count >= 0
    ensures s == SelectWithFallback(score, target, pool, count, usedAny, usedTargets, mode, random, at)
    ensures s.Chosen? <==> Supply(target, pool, {}) >= count
    ensures s.Chosen? ==> SelectedFrom(target, pool, count, {}, s.users)
    ensures Supply(target, pool, usedAny) >= count ==> s.Chosen? && SelectedFrom(target, pool, count, usedAny, s.users)
    ensures Supply(target, pool, usedAny) < count <= Supply(target, pool, usedTargets) ==>
      s.Chosen? && SelectedFrom(target, pool, count, usedTargets, s.users)
  {
    SupplyShrinks(target, pool, usedAny);
    SupplyShrinks(target, pool, usedTargets);
    s := Select(score, target, pool, count, usedAny, mode, random, at);
    if s.Chosen? {
      SelectedAreEligible(score, target, pool, count, usedAny, mode, random, at);
    } else {
      s := Select(score, target, pool, count, usedTargets, mode, random, at);
      if s.Chosen? {
        SelectedAreEligible(score, target, pool, count, usedTargets, mode, random, at);
      } else {
        s := Select(score, target, pool, count, {}, mode, random, at);
        if s.Chosen? {
          SelectedAreEligible(score, target, pool, count, {}, mode, random, at);
        }
      }
    }
  }

  method SelectDistractors(
      score: Score, target: User, pool: seq<User>, count: int, exclude: set<UserId>, mode: Mode, random: Source, at: int)
    returns (s: Selection)
    requires IsSource(random) && count >= 0
    ensures s == Select(score, target, pool, count, exclude, mode, random, at)
  {
    var users := Candidates(target, pool, exclude);
    if |users| < count {
      return Insufficient;
    }
    var scored := ScoredBy(score, target, users);
    var ordered, used := DeterministicOrder(scored), 0;
    if mode == Random {
      ordered, used := RandomlyOrdered(scored, random, at);
    }
    OrderKeepsAll(mode, scored, random, at);
    s := Chosen(UsersOf(ordered[..count]), used);
  }

  method SelectDistractorsWithFallback(
      score: Score, target: User, pool: seq<User>, count: int, usedAny: set<UserId>, usedTargets: set<UserId>,
      mode: Mode, random: Source, at: int) returns (s: Selection)
    requires IsSource(random) && count >= 0
    ensures s == SelectWithFallback(score, target, pool, count, usedAny, usedTargets, mode, random, at)
  {
    s := SelectDistractors(score, target, pool, count, usedAny, mode, random, at);
    if s == Insufficient {
      s := SelectDistractors(score, target, pool, count, usedTargets, mode, random, at);
      if s == Insufficient {
        s := SelectDistractors(score, target, pool, count, {}, mode, random, at);
      }
    }
  }
}

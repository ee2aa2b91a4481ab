/**
 A forum user's statistics, recomputed from the user's posts
 (apps/guess/src/importer/stats.ts). Averages are over the reals.
 */
module ForumStats {
  import opened Options
  import opened Sorting
  import opened Utf16

  type Category = int

  datatype Post = Post(approved: bool, words: int, quality: real, category: Category, postedAt: int)

  datatype Count = Count(category: Category, posts: int)

  datatype Stats = Stats(
    approvedPosts: int, totalPosts: int, avgWords: int, avgQuality: real,
    topCategories: seq<Category>, usernameLength: int, firstActiveAt: Option<int>, lastActiveAt: Option<int>)

  const TOP_CATEGORIES_LIMIT := 5

  // --------------------------------------------------------------------
  // The parts
  // --------------------------------------------------------------------

  function Approved(posts: seq<Post>): seq<Post> {
    if posts == [] then []
    else if posts[0].approved then [posts[0]] + Approved(posts[1..])
    else Approved(posts[1..])
  }

  function Sum(s: seq<real>): real {
    if s == [] then 0.0 else s[0] + Sum(s[1..])
  }

  function Average(s: seq<real>): real {
    if s == [] then 0.0 else Sum(s) / |s| as real
  }

  /** `Math.round` */
  function Round(x: real): int {
    (x + 0.5).Floor
  }

  function WordsOf(): Post -> real {
    (p: Post) => p.words as real
  }

  function QualityOf(): Post -> real {
    (p: Post) => p.quality
  }

  function CategoryOf(): Post -> Category {
    (p: Post) => p.category
  }

  function TimeOf(): Post -> int {
    (p: Post) => p.postedAt
  }

  /** The JavaScript Map of counts, its entries in insertion order. */
  function Bumped(counts: seq<Count>, c: Category): seq<Count> {
    if counts == [] then [Count(c, 1)]
    else if counts[0].category == c then [Count(c, counts[0].posts + 1)] + counts[1..]
    else [counts[0]] + Bumped(counts[1..], c)
  }

  function Counts(categories: seq<Category>): seq<Count> {
    if categories == [] then []
    else Bumped(Counts(categories[..|categories| - 1]), categories[|categories| - 1])
  }

  /** More posts first; ties by category id. */
  function MoreFrequent(): (Count, Count) -> bool {
    (a: Count, b: Count) => if a.posts != b.posts then a.posts > b.posts else a.category < b.category
  }

  function Prefix<T>(s: seq<T>, n: int): seq<T>
    requires n >= 0
  {
    if |s| <= n then s else s[..n]
  }

  function CategoriesOf(counts: seq<Count>): (r: seq<Category>)
    ensures |r| == |counts| && forall i | 0 <= i < |counts| :: r[i] == counts[i].category
  {
    seq(|counts|, i requires 0 <= i < |counts| => counts[i].category)
  }

  function TopCategories(categories: seq<Category>): seq<Category> {
    CategoriesOf(Prefix(Sort(MoreFrequent(), Counts(categories)), TOP_CATEGORIES_LIMIT))
  }

  function Earliest(times: seq<int>): Option<int> {
    if times == [] then None
    else
      var n := |times| - 1;
      match Earliest(times[..n])
      case None => Some(times[n])
      case Some(t) => if times[n] < t then Some(times[n]) else Some(t)
  }

  function Latest(times: seq<int>): Option<int> {
    if times == [] then None
    else
      var n := |times| - 1;
      match Latest(times[..n])
      case None => Some(times[n])
      case Some(t) => if times[n] > t then Some(times[n]) else Some(t)
  }

  function StatsOf(username: Text, posts: seq<Post>): Stats {
    var approved := Approved(posts);
    Stats(
      |approved|, |posts|,
      if approved == [] then 0 else Round(Average(Map(WordsOf(), approved))),
      Average(Map(QualityOf(), approved)),
      TopCategories(Map(CategoryOf(), approved)), |username|,
      Earliest(Map(TimeOf(), approved)), Latest(Map(TimeOf(), approved)))
  }

  // --------------------------------------------------------------------
  // The procedure
  // --------------------------------------------------------------------

  method ComputeForumUserStats(username: Text, posts: seq<Post>) returns (stats: Stats)
    ensures stats == StatsOf(username, posts)
  {
    var approved := Approved(posts);
    var counts: seq<Count>, first, last := [], None, None;
    for i := 0 to |approved|
      invariant counts == Counts(Map(CategoryOf(), approved[..i]))
      invariant first == Earliest(Map(TimeOf(), approved[..i]))
      invariant last == Latest(Map(TimeOf(), approved[..i]))
    {
      MapTakes(approved, i);
      counts := Bumped(counts, approved[i].category);
      if first.None? || approved[i].postedAt < first.value {
        first := Some(approved[i].postedAt);
      }
      if last.None? || approved[i].postedAt > last.value {
        last := Some(approved[i].postedAt);
      }
    }
    assert approved[..|approved|] == approved;
    var top := CategoriesOf(Prefix(Sort(MoreFrequent(), counts), TOP_CATEGORIES_LIMIT));
    stats := Stats(
      |approved|, |posts|,
      if approved == [] then 0 else Round(Average(Map(WordsOf(), approved))),
      Average(Map(QualityOf(), approved)), top, |username|, first, last);
  }

  lemma MapTakes(s: seq<Post>, i: int)
    requires 0 <= i < |s|
    ensures Map(CategoryOf(), s[..i + 1])[..i] == Map(CategoryOf(), s[..i])
    ensures Map(TimeOf(), s[..i + 1])[..i] == Map(TimeOf(), s[..i])
  {
  }

  // --------------------------------------------------------------------
  // The order of the posts does not matter
  // --------------------------------------------------------------------

  lemma {:induction false} ApprovedJoins(s: seq<Post>, t: seq<Post>)
    ensures Approved(s + t) == Approved(s) + Approved(t)
  {
    if s == [] {
      assert s + t == t;
    } else {
      assert (s + t)[1..] == s[1..] + t;
      ApprovedJoins(s[1..], t);
    }
  }

  lemma ApprovedWithout(s: seq<Post>, i: int)
    requires 0 <= i < |s|
    ensures multiset(Approved(s))
         == multiset(Approved(Without(s, i))) + if s[i].approved then multiset{s[i]} else multiset{}
  {
    Parts(s, i);
    ApprovedAround(s[..i], s[i], s[i + 1..]);
  }

  lemma ApprovedAround(a: seq<Post>, p: Post, b: seq<Post>)
    ensures multiset(Approved(a + ([p] + b)))
         == multiset(Approved(a + b)) + if p.approved then multiset{p} else multiset{}
  {
    ApprovedJoins(a, [p] + b);
    ApprovedJoins(a, b);
    assert ([p] + b)[1..] == b;
    assert Approved([p] + b) == (if p.approved then [p] else []) + Approved(b);
  }

  lemma {:induction false} ApprovedCounts(s: seq<Post>, t: seq<Post>)
    requires multiset(s) == multiset(t)
    ensures multiset(Approved(s)) == multiset(Approved(t))
    decreases |s|
  {
    SameElements(s, t);
    if s != [] {
      assert s[0] in t;
      var i :| 0 <= i < |t| && t[i] == s[0];
      WithoutOne(s, 0);
      WithoutOne(t, i);
      ApprovedCounts(Without(s, 0), Without(t, i));
      ApprovedWithout(s, 0);
      ApprovedWithout(t, i);
    }
  }

  lemma {:induction false} SumJoins(s: seq<real>, t: seq<real>)
    ensures Sum(s + t) == Sum(s) + Sum(t)
  {
    if s == [] {
      assert s + t == t;
    } else {
      assert (s + t)[1..] == s[1..] + t;
      SumJoins(s[1..], t);
    }
  }

  lemma SumWithout(s: seq<real>, i: int)
    requires 0 <= i < |s|
    ensures Sum(s) == Sum(Without(s, i)) + s[i]
  {
    Parts(s, i);
    SumAround(s[..i], s[i], s[i + 1..]);
  }

  lemma SumAround(a: seq<real>, x: real, b: seq<real>)
    ensures Sum(a + ([x] + b)) == Sum(a + b) + x
  {
    SumJoins(a, [x] + b);
    SumJoins(a, b);
    assert ([x] + b)[1..] == b;
  }

  lemma {:induction false} SumPermutes(s: seq<real>, t: seq<real>)
    requires multiset(s) == multiset(t)
    ensures Sum(s) == Sum(t)
    decreases |s|
  {
    SameElements(s, t);
    if s != [] {
      assert s[0] in t;
      var i :| 0 <= i < |t| && t[i] == s[0];
      WithoutOne(s, 0);
      WithoutOne(t, i);
      SumPermutes(Without(s, 0), Without(t, i));
      SumWithout(s, 0);
      SumWithout(t, i);
    }
  }

  predicate DistinctCategories(counts: seq<Count>) {
    forall i, j | 0 <= i < j < |counts| :: counts[i].category != counts[j].category
  }

  /** x is the entry of its category: it occurs, that often. */
  predicate Tells(categories: seq<Category>, x: Count) {
    x.posts > 0 && x.posts == multiset(categories)[x.category]
  }

  lemma {:induction false} BumpedEntry(counts: seq<Count>, c: Category, x: Count)
    requires DistinctCategories(counts)
    ensures DistinctCategories(Bumped(counts, c))
    ensures forall k | 0 <= k < |Bumped(counts, c)| ::
              Bumped(counts, c)[k].category == c || Bumped(counts, c)[k] in counts
    ensures x.category != c ==> (x in Bumped(counts, c) <==> x in counts)
    ensures x.category == c && Count(c, x.posts - 1) in counts ==> x in Bumped(counts, c)
    ensures x.category == c && (forall y | y in counts :: y.category != c) ==> (x in Bumped(counts, c) <==> x.posts == 1)
    ensures x.category == c && x in Bumped(counts, c) ==>
              Count(c, x.posts - 1) in counts || (x.posts == 1 && forall y | y in counts :: y.category != c)
  {
    if counts != [] && counts[0].category != c {
      BumpedEntry(counts[1..], c, x);
    }
  }

  /** Each category that occurs has one entry, with how often it occurs. */
  lemma {:induction false} CountsTell(categories: seq<Category>, x: Count)
    ensures DistinctCategories(Counts(categories))
    ensures x in Counts(categories) <==> Tells(categories, x)
  {
    if categories != [] {
      var n := |categories| - 1;
      var before, c := categories[..n], categories[n];
      assert categories == before + [c];
      CountsTell(before, x);
      BumpedEntry(Counts(before), c, x);
      if x.category == c {
        CountsTell(before, Count(c, x.posts - 1));
        if multiset(before)[c] == 0 {
          forall y | y in Counts(before) ensures y.category != c {
            CountsTell(before, y);
          }
        } else {
          CountsTell(before, Count(c, multiset(before)[c]));
        }
      }
    }
  }

  lemma CountsDistinct(counts: seq<Count>)
    requires DistinctCategories(counts)
    ensures Distinct(counts) && RanksApart(MoreFrequent(), counts)
  {
    forall i, j | 0 <= i < j < |counts| ensures counts[i] != counts[j] {
      assert counts[i].category != counts[j].category;
    }
  }

  lemma CountsPermute(s: seq<Category>, t: seq<Category>)
    requires multiset(s) == multiset(t)
    ensures multiset(Counts(s)) == multiset(Counts(t))
  {
    forall x ensures x in Counts(s) <==> x in Counts(t) {
      CountsTell(s, x);
      CountsTell(t, x);
    }
    CountsTell(s, Count(0, 0));
    CountsTell(t, Count(0, 0));
    CountsDistinct(Counts(s));
    CountsDistinct(Counts(t));
    DistinctCounts(Counts(s));
    DistinctCounts(Counts(t));
    assert Elements(Counts(s)) == Elements(Counts(t));
  }

  lemma FrequencyRanks()
    ensures IsRanking(MoreFrequent())
  {
  }

  lemma TopCategoriesPermute(s: seq<Category>, t: seq<Category>)
    requires multiset(s) == multiset(t)
    ensures TopCategories(s) == TopCategories(t)
  {
    FrequencyRanks();
    CountsPermute(s, t);
    CountsTell(s, Count(0, 0));
    CountsDistinct(Counts(s));
    SortForgetsOrder(MoreFrequent(), Counts(s), Counts(t));
  }

  predicate IsEarliest(times: seq<int>, r: Option<int>) {
    match r
    case None => times == []
    case Some(t) => t in times && forall x | x in times :: t <= x
  }

  predicate IsLatest(times: seq<int>, r: Option<int>) {
    match r
    case None => times == []
    case Some(t) => t in times && forall x | x in times :: x <= t
  }

  /** The first and last activity are the least and the greatest time. */
  lemma {:induction false} ActivityBounds(times: seq<int>)
    ensures IsEarliest(times, Earliest(times)) && IsLatest(times, Latest(times))
  {
    if times != [] {
      var n := |times| - 1;
      ActivityBounds(times[..n]);
      assert times == times[..n] + [times[n]];
    }
  }

  lemma ActivityPermutes(s: seq<int>, t: seq<int>)
    requires multiset(s) == multiset(t)
    ensures Earliest(s) == Earliest(t) && Latest(s) == Latest(t)
  {
    SameElements(s, t);
    ActivityBounds(s);
    ActivityBounds(t);
  }

  /** Permuting a user's posts does not change the user's statistics. */
  lemma StatsIgnorePostOrder(username: Text, s: seq<Post>, t: seq<Post>)
    requires multiset(s) == multiset(t)
    ensures StatsOf(username, s) == StatsOf(username, t)
  {
    SameElements(s, t);
    ApprovedCounts(s, t);
    var a, b := Approved(s), Approved(t);
    SameElements(a, b);
    MapCount(WordsOf(), a, b);
    SumPermutes(Map(WordsOf(), a), Map(WordsOf(), b));
    MapCount(QualityOf(), a, b);
    SumPermutes(Map(QualityOf(), a), Map(QualityOf(), b));
    MapCount(CategoryOf(), a, b);
    TopCategoriesPermute(Map(CategoryOf(), a), Map(CategoryOf(), b));
    MapCount(TimeOf(), a, b);
    ActivityPermutes(Map(TimeOf(), a), Map(TimeOf(), b));
  }

  // --------------------------------------------------------------------
  // What the top categories are
  // --------------------------------------------------------------------

  function Occurrences(categories: seq<Category>, c: Category): int {
    multiset(categories)[c]
  }

  /** d comes after c among the top categories. */
  predicate Outranks(categories: seq<Category>, c: Category, d: Category) {
    || Occurrences(categories, c) > Occurrences(categories, d)
    || (Occurrences(categories, c) == Occurrences(categories, d) && c < d)
  }

  lemma SortedCounts(categories: seq<Category>) returns (t: seq<Count>)
    ensures t == Sort(MoreFrequent(), Counts(categories)) && DistinctCategories(t)
    ensures forall i | 0 <= i < |t| :: Tells(categories, t[i])
    ensures forall i, j | 0 <= i < j < |t| :: Outranks(categories, t[i].category, t[j].category)
    ensures forall c | c in categories :: Count(c, Occurrences(categories, c)) in t
  {
    var counts := Counts(categories);
    t := Sort(MoreFrequent(), counts);
    FrequencyRanks();
    SortIsSorted(MoreFrequent(), counts);
    SameElements(t, counts);
    CountsTell(categories, Count(0, 0));
    CountsDistinct(counts);
    PermutedCategories(counts, t);
    forall i | 0 <= i < |t| ensures Tells(categories, t[i]) {
      CountsTell(categories, t[i]);
    }
    forall i, j | 0 <= i < j < |t| ensures Outranks(categories, t[i].category, t[j].category) {
      assert !MoreFrequent()(t[j], t[i]);
      assert Tells(categories, t[i]) && Tells(categories, t[j]);
    }
    forall c | c in categories ensures Count(c, Occurrences(categories, c)) in t {
      assert c in multiset(categories);
      CountsTell(categories, Count(c, Occurrences(categories, c)));
    }
  }

  lemma PermutedCategories(s: seq<Count>, t: seq<Count>)
    requires multiset(s) == multiset(t) && DistinctCategories(s)
    ensures DistinctCategories(t)
  {
    MapCount((x: Count) => x.category, s, t);
    var a, b := Map((x: Count) => x.category, s), Map((x: Count) => x.category, t);
    PartOfDistinct(b, a);
    forall i, j | 0 <= i < j < |t| ensures t[i].category != t[j].category {
      assert b[i] != b[j];
    }
  }

  lemma AmongTop(t: seq<Count>, k: int)
    requires 0 <= k < |Prefix(t, TOP_CATEGORIES_LIMIT)|
    ensures k < |t| && t[k].category in CategoriesOf(Prefix(t, TOP_CATEGORIES_LIMIT))
  {
    assert CategoriesOf(Prefix(t, TOP_CATEGORIES_LIMIT))[k] == t[k].category;
  }

  /** At most five, all occurring, in rank order; and every category left out ranks below every one kept. */
  lemma TopCategoriesAreMostFrequent(categories: seq<Category>, i: int, d: Category)
    requires 0 <= i < |TopCategories(categories)|
    ensures var top := TopCategories(categories);
      && |top| <= TOP_CATEGORIES_LIMIT && top[i] in categories
      && (forall j | i < j < |top| :: Outranks(categories, top[i], top[j]))
      && (d in categories && d !in top ==> |top| == TOP_CATEGORIES_LIMIT && Outranks(categories, top[i], d))
  {
    var t := SortedCounts(categories);
    var top := TopCategories(categories);
    assert Tells(categories, t[i]);
    assert top[i] in multiset(categories);
    if d in categories && d !in top {
      assert Count(d, Occurrences(categories, d)) in t;
      var k :| 0 <= k < |t| && t[k] == Count(d, Occurrences(categories, d));
      if k < |top| {
        AmongTop(t, k);
      }
      assert Outranks(categories, t[i].category, t[k].category);
    }
  }

  // --------------------------------------------------------------------
  // What the numbers are
  // --------------------------------------------------------------------

  lemma {:induction false} ApprovedAre(posts: seq<Post>, p: Post)
    ensures p in Approved(posts) <==> p in posts && p.approved
    ensures |Approved(posts)| <= |posts|
    ensures |Approved(posts)| == |posts| <==> forall q | q in posts :: q.approved
  {
    if posts != [] {
      ApprovedAre(posts[1..], p);
      assert posts == [posts[0]] + posts[1..];
      assert forall q | q in posts :: q == posts[0] || q in posts[1..];
      assert forall q | q in posts[1..] :: q in posts;
    }
  }

  lemma {:induction false} SumBounds(s: seq<real>, lo: real, hi: real)
    requires forall x | x in s :: lo <= x <= hi
    ensures lo * |s| as real <= Sum(s) <= hi * |s| as real
  {
    if s != [] {
      assert forall x | x in s[1..] :: x in s;
      SumBounds(s[1..], lo, hi);
      assert s[0] in s;
      OneMoreTimes(lo, |s|);
      OneMoreTimes(hi, |s|);
    }
  }

  lemma OneMoreTimes(x: real, n: int)
    ensures x * n as real == x * (n - 1) as real + x
  {
  }

  lemma SignOfFactor(d: real, n: real)
    requires n > 0.0 && d * n >= 0.0
    ensures d >= 0.0
  {
  }

  lemma QuotientBounds(x: real, n: real, lo: real, hi: real)
    requires n > 0.0 && lo * n <= x <= hi * n
    ensures lo <= x / n <= hi && (x / n) * n == x
  {
    var q := x / n;
    assert q * n == x;
    assert (q - lo) * n == x - lo * n && (hi - q) * n == hi * n - x;
    SignOfFactor(q - lo, n);
    SignOfFactor(hi - q, n);
  }

  /** An average times how many there are is their sum, and it lies between any bounds of theirs. */
  lemma AverageIsMean(s: seq<real>, lo: real, hi: real)
    requires s != [] && forall x | x in s :: lo <= x <= hi
    ensures Average(s) * |s| as real == Sum(s) && lo <= Average(s) <= hi
  {
    SumBounds(s, lo, hi);
    QuotientBounds(Sum(s), |s| as real, lo, hi);
  }

  /** The nearest integer, halves upwards. */
  lemma RoundIsNearest(x: real)
    ensures -0.5 < Round(x) as real - x <= 0.5
  {
  }

  /** Only approved posts are counted as such. */
  lemma ApprovedAreCounted(username: Text, posts: seq<Post>)
    ensures var r := StatsOf(username, posts);
      && r.totalPosts == |posts| && r.usernameLength == |username| && 0 <= r.approvedPosts <= r.totalPosts
      && (r.approvedPosts == r.totalPosts <==> forall p | p in posts :: p.approved)
      && (r.approvedPosts == 0 <==> forall p | p in posts :: !p.approved)
  {
    var approved := Approved(posts);
    ApprovedAre(posts, Post(true, 0, 0.0, 0, 0));
    forall p | p in posts && p.approved ensures approved != [] {
      ApprovedAre(posts, p);
    }
    if approved != [] {
      ApprovedAre(posts, approved[0]);
    }
  }

  /** The averages are of the approved posts: the quality exactly, the words to the nearest integer, and 0 without any. */
  lemma AveragesAreOfApproved(username: Text, posts: seq<Post>)
    returns (r: Stats, words: seq<real>, qualities: seq<real>)
    ensures r == StatsOf(username, posts) && |words| == |qualities| == r.approvedPosts
    ensures words == Map(WordsOf(), Approved(posts)) && qualities == Map(QualityOf(), Approved(posts))
    ensures r.avgQuality == Average(qualities) && -0.5 < r.avgWords as real - Average(words) <= 0.5
    ensures r.approvedPosts == 0 ==> r.avgWords == 0 && r.avgQuality == 0.0
  {
    r, words, qualities := StatsOf(username, posts), Map(WordsOf(), Approved(posts)), Map(QualityOf(), Approved(posts));
    if r.approvedPosts > 0 {
      RoundIsNearest(Average(words));
    }
  }
}

/**
 Sampling driven by an injected random source (apps/guess/src/game/random.ts and the
 shuffle of apps/guess/src/game/distractor.ts).

 The code only ever scales a draw x in [0, 1) to an index, Math.floor(x * n). A source
 gives the k-th draw scaled to n; `Scaled` makes one of any sequence of draws, and `at`
 is the number of draws already used.
 */
module RandomSource {
  import opened Sorting

  type Draws = int -> real

  type Source = (int, int) -> int

  ghost predicate AreDraws(draws: Draws) {
    forall k :: 0.0 <= draws(k) < 1.0
  }

  ghost predicate IsSource(random: Source) {
    forall k, n | n > 0 :: 0 <= random(k, n) < n
  }

  /** `Math.floor(random() * n)` */
  function Index(x: real, n: int): int {
    (x * n as real).Floor
  }

  function Scaled(draws: Draws): Source {
    (k: int, n: int) => Index(draws(k), n)
  }

  lemma IndexInRange(x: real, n: int)
    requires 0.0 <= x < 1.0 && n > 0
    ensures 0 <= Index(x, n) < n
  {
    assert (1.0 - x) * n as real > 0.0;
  }

  lemma ScaledIsSource(draws: Draws)
    requires AreDraws(draws)
    ensures IsSource(Scaled(draws))
  {
    forall k, n | n > 0 ensures 0 <= Scaled(draws)(k, n) < n {
      IndexInRange(draws(k), n);
    }
  }

  lemma SignOfProduct(x: real, y: real)
    requires y > 0.0
    ensures x * y < 0.0 <==> x < 0.0
  {
  }

  lemma IndexReached(j: int, n: int)
    requires 0 <= j < n
    ensures 0.0 <= j as real / n as real < 1.0 && Index(j as real / n as real, n) == j
  {
    var x := j as real / n as real;
    assert x * n as real == j as real;
    SignOfProduct(x, n as real);
    SignOfProduct(x - 1.0, n as real);
  }

  // --------------------------------------------------------------------
  // The seeded generator
  // --------------------------------------------------------------------

  const INCREMENT: bv32 := 0x6d2b79f5

  function Scramble(state: bv32): bv32 {
    var t := (state ^ (state >> 15)) * (1 | state);
    var u := (t + (t ^ (t >> 7)) * (61 | t)) ^ t;
    u ^ (u >> 14)
  }

  /** An unsigned 32-bit number as the fraction of 2^32 it is. */
  function Fraction(x: bv32): real {
    x as int as real / 4294967296.0
  }

  function Draw(state: bv32): real {
    Fraction(Scramble(state))
  }

  /** The first three draws of seed 0 and the first of the largest seed, as fractions of 2^32. */
  lemma KnownDraws()
    ensures Scramble(INCREMENT) == 1144304738 && Scramble(INCREMENT + INCREMENT) == 1416247
    ensures Scramble(INCREMENT + INCREMENT + INCREMENT) == 958946056
    ensures Scramble(0xffff_ffff + INCREMENT) == 3850105811
  {
  }

  class Mulberry32 {
    var state: bv32

    constructor (seed: bv32)
      ensures state == seed
    {
      state := seed;
    }

    method Next() returns (r: real)
      modifies this
      ensures state == old(state) + INCREMENT && r == Draw(state) && 0.0 <= r < 1.0
    {
      state := state + INCREMENT;
      r := Draw(state);
    }
  }

  // --------------------------------------------------------------------
  // Sampling without replacement
  // --------------------------------------------------------------------

  ghost function Picked<T>(items: seq<T>, count: int, random: Source, at: int): (r: seq<T>)
    requires IsSource(random)
    decreases |items|
  {
    if count <= 0 || items == [] then []
    else
      var i := random(at, |items|);
      [items[i]] + Picked(Without(items, i), count - 1, random, at + 1)
  }

  /** A sample has the size asked for, or all there is. */
  lemma {:induction false} PickedSize<T>(items: seq<T>, count: int, random: Source, at: int)
    requires IsSource(random)
    ensures |Picked(items, count, random, at)| == if count <= 0 then 0 else if count < |items| then count else |items|
    decreases |items|
  {
    if count > 0 && items != [] {
      PickedSize(Without(items, random(at, |items|)), count - 1, random, at + 1);
    }
  }

  /** It takes no item more often than it is there. */
  lemma {:induction false} PickedIsPart<T>(items: seq<T>, count: int, random: Source, at: int)
    requires IsSource(random)
    ensures multiset(Picked(items, count, random, at)) <= multiset(items)
    decreases |items|
  {
    if count > 0 && items != [] {
      var i := random(at, |items|);
      PickedIsPart(Without(items, i), count - 1, random, at + 1);
      OneMore(items, i, Picked(Without(items, i), count - 1, random, at + 1));
    }
  }

  /** It takes everything when asked for as much. */
  lemma {:induction false} PickedIsAll<T>(items: seq<T>, count: int, random: Source, at: int)
    requires IsSource(random) && count >= |items|
    ensures multiset(Picked(items, count, random, at)) == multiset(items)
    decreases |items|
  {
    if items != [] {
      var i := random(at, |items|);
      NextPicked(items, count, random, at);
      PickedIsAll(Without(items, i), count - 1, random, at + 1);
      OneMore(items, i, Picked(Without(items, i), count - 1, random, at + 1));
    }
  }

  lemma PickedIsSample<T>(items: seq<T>, count: int, random: Source, at: int)
    requires IsSource(random)
    ensures multiset(Picked(items, count, random, at)) <= multiset(items)
    ensures count >= |items| ==> multiset(Picked(items, count, random, at)) == multiset(items)
  {
    PickedIsPart(items, count, random, at);
    if count >= |items| {
      PickedIsAll(items, count, random, at);
    }
  }

  lemma OneMore<T>(whole: seq<T>, i: int, rest: seq<T>)
    requires 0 <= i < |whole| && multiset(rest) <= multiset(Without(whole, i))
    ensures multiset([whole[i]] + rest) <= multiset(whole)
    ensures multiset(rest) == multiset(Without(whole, i)) ==> multiset([whole[i]] + rest) == multiset(whole)
  {
    WithoutOne(whole, i);
    assert multiset([whole[i]] + rest) == multiset{whole[i]} + multiset(rest);
  }

  /** The draws whose first one, at position k, scales to i among n. */
  function Steered(k: int, i: int, n: int, rest: Draws): Draws
    requires 0 <= i < n
  {
    (l: int) => if l == k then i as real / n as real else rest(l)
  }

  lemma SteeredScales(k: int, i: int, n: int, rest: Draws)
    requires 0 <= i < n && AreDraws(rest)
    ensures AreDraws(Steered(k, i, n, rest)) && IsSource(Scaled(rest)) && IsSource(Scaled(Steered(k, i, n, rest)))
    ensures Scaled(Steered(k, i, n, rest))(k, n) == i
    ensures forall l | l != k :: Steered(k, i, n, rest)(l) == rest(l)
  {
    IndexReached(i, n);
    ScaledIsSource(rest);
    ScaledIsSource(Steered(k, i, n, rest));
  }

  /** Two sources that give the same from draw `lo` up to draw `hi`. */
  ghost predicate AgreeOn(r: Draws, q: Draws, lo: int, hi: int) {
    forall k | lo <= k < hi :: r(k) == q(k)
  }

  /** Draws that are the same but in that stretch. */
  ghost predicate SameOutside(r: Draws, q: Draws, lo: int, hi: int) {
    forall k | k < lo || hi <= k :: r(k) == q(k)
  }

  lemma OutsideBoth(r: Draws, q: Draws, base: Draws, lo: int, mid: int, hi: int)
    requires lo <= mid <= hi && SameOutside(r, q, lo, mid) && SameOutside(q, base, mid, hi)
    ensures SameOutside(r, base, lo, hi)
  {
  }

  function PickedDraws(size: int, count: int): int {
    if count <= 0 then 0 else if count < size then count else size
  }

  /** A sample depends on its own draws alone. */
  lemma {:induction false} PickedAgree<T>(items: seq<T>, count: int, r: Draws, q: Draws, at: int)
    requires AreDraws(r) && AreDraws(q) && AgreeOn(r, q, at, at + PickedDraws(|items|, count))
    ensures IsSource(Scaled(r)) && IsSource(Scaled(q))
    ensures Picked(items, count, Scaled(r), at) == Picked(items, count, Scaled(q), at)
    decreases |items|
  {
    ScaledIsSource(r);
    ScaledIsSource(q);
    if count > 0 && items != [] {
      assert r(at) == q(at);
      PickedAgree(Without(items, Scaled(r)(at, |items|)), count - 1, r, q, at + 1);
    }
  }

  lemma WhereFirst<T>(items: seq<T>, wanted: seq<T>) returns (i: int)
    requires multiset(wanted) <= multiset(items) && wanted != []
    ensures 0 <= i < |items| && items[i] == wanted[0]
    ensures multiset(wanted[1..]) <= multiset(Without(items, i)) && [wanted[0]] + wanted[1..] == wanted
  {
    assert wanted[0] in multiset(wanted);
    assert wanted[0] in multiset(items);
    i :| 0 <= i < |items| && items[i] == wanted[0];
    WithoutOne(items, i);
    RestOf(wanted);
  }

  /** Every sample of the items, in every order, is drawn by some draws, that differ from any given ones only there. */
  lemma {:induction false} EverySampleIsDrawn<T>(items: seq<T>, wanted: seq<T>, base: Draws, at: int) returns (draws: Draws)
    requires multiset(wanted) <= multiset(items) && AreDraws(base)
    ensures AreDraws(draws) && IsSource(Scaled(draws)) && Picked(items, |wanted|, Scaled(draws), at) == wanted
    ensures SameOutside(draws, base, at, at + |wanted|)
    decreases |wanted|
  {
    if wanted == [] {
      draws := base;
      ScaledIsSource(draws);
    } else {
      var i := WhereFirst(items, wanted);
      var rest := EverySampleIsDrawn(Without(items, i), wanted[1..], base, at + 1);
      draws := Steered(at, i, |items|, rest);
      SteeredScales(at, i, |items|, rest);
      NextPicked(items, |wanted|, Scaled(draws), at);
      PickedAgree(Without(items, i), |wanted| - 1, draws, rest, at + 1);
    }
  }

  /** Every arrangement of the items is the sample some draws lead to. */
  lemma EveryArrangementIsDrawn<T>(items: seq<T>, wanted: seq<T>, at: int) returns (draws: Draws)
    requires multiset(items) == multiset(wanted)
    ensures AreDraws(draws) && IsSource(Scaled(draws)) && Picked(items, |items|, Scaled(draws), at) == wanted
  {
    SameElements(items, wanted);
    draws := EverySampleIsDrawn(items, wanted, k => 0.0, at);
  }

  lemma NextPicked<T>(pool: seq<T>, count: int, random: Source, at: int)
    requires IsSource(random) && count > 0 && pool != []
    ensures var i := random(at, |pool|);
      Picked(pool, count, random, at) == [pool[i]] + Picked(Without(pool, i), count - 1, random, at + 1)
  {
  }

  lemma Regrouped<T>(s: seq<T>, x: T, t: seq<T>)
    ensures s + ([x] + t) == (s + [x]) + t
  {
  }

  method TakeOne<T>(pool: seq<T>, random: Source, at: int) returns (x: T, rest: seq<T>)
    requires IsSource(random) && pool != []
    ensures |rest| == |pool| - 1
    ensures forall count | count > 0 ::
      Picked(pool, count, random, at) == [x] + Picked(rest, count - 1, random, at + 1)
  {
    var i := random(at, |pool|);
    x := pool[i];
    rest := pool[..i] + pool[i + 1..];
    forall count | count > 0
      ensures Picked(pool, count, random, at) == [x] + Picked(rest, count - 1, random, at + 1)
    {
      NextPicked(pool, count, random, at);
    }
  }

  method PickWithoutReplacement<T>(items: seq<T>, count: int, random: Source, at: int) returns (picked: seq<T>)
    requires IsSource(random)
    ensures picked == Picked(items, count, random, at)
  {
    ghost var whole := Picked(items, count, random, at);
    ghost var left := whole;
    var pool := items;
    picked := [];
    var n := if count < |pool| then count else |pool|;
    var used := 0;
    while used < n
      invariant |pool| == |items| - used && (used <= n || used == 0)
      invariant whole == picked + left && left == Picked(pool, count - used, random, at + used)
    {
      var x, rest := TakeOne(pool, random, at + used);
      left := Picked(rest, count - used - 1, random, at + used + 1);
      Regrouped(picked, x, left);
      picked, pool, used := picked + [x], rest, used + 1;
    }
  }

  // --------------------------------------------------------------------
  // Shuffling in place
  // --------------------------------------------------------------------

  function Swapped<T>(s: seq<T>, i: int, j: int): seq<T>
    requires 0 <= i < |s| && 0 <= j < |s|
  {
    s[i := s[j]][j := s[i]]
  }

  /** The exchanges from position i down to 1. */
  ghost function ShuffledFrom<T>(s: seq<T>, i: int, random: Source, at: int): seq<T>
    requires IsSource(random) && i < |s|
    decreases i
  {
    if i <= 0 then s
    else
      ShuffledFrom(Swapped(s, i, random(at, i + 1)), i - 1, random, at + 1)
  }

  ghost function Shuffled<T>(s: seq<T>, random: Source, at: int): seq<T>
    requires IsSource(random)
  {
    ShuffledFrom(s, |s| - 1, random, at)
  }

  lemma SwappedIsArrangement<T>(s: seq<T>, i: int, j: int)
    requires 0 <= i < |s| && 0 <= j < |s|
    ensures |Swapped(s, i, j)| == |s| && multiset(Swapped(s, i, j)) == multiset(s)
  {
    assert multiset(s[i := s[j]]) == multiset(s) - multiset{s[i]} + multiset{s[j]};
  }

  lemma {:induction false} ShuffledIsArrangement<T>(s: seq<T>, i: int, random: Source, at: int)
    requires IsSource(random) && i < |s|
    ensures |ShuffledFrom(s, i, random, at)| == |s|
    ensures multiset(ShuffledFrom(s, i, random, at)) == multiset(s)
    ensures forall k | 0 <= k < |s| && i < k :: ShuffledFrom(s, i, random, at)[k] == s[k]
    decreases i
  {
    if i > 0 {
      var j := random(at, i + 1);
      SwappedIsArrangement(s, i, j);
      ShuffledIsArrangement(Swapped(s, i, j), i - 1, random, at + 1);
    }
  }

  lemma ShuffledKeepsAll<T>(s: seq<T>, random: Source, at: int)
    requires IsSource(random)
    ensures multiset(Shuffled(s, random, at)) == multiset(s)
  {
    ShuffledIsArrangement(s, |s| - 1, random, at);
  }

  lemma LastOneFits<T>(s: seq<T>, wanted: seq<T>, i: int) returns (j: int)
    requires multiset(s) == multiset(wanted) && 0 <= i < |s| == |wanted|
    requires forall k | i < k < |s| :: s[k] == wanted[k]
    ensures 0 <= j <= i && s[j] == wanted[i]
  {
    assert s[i + 1..] == wanted[i + 1..];
    assert s == s[..i + 1] + s[i + 1..] && wanted == wanted[..i + 1] + wanted[i + 1..];
    assert multiset(s[..i + 1]) == multiset(s) - multiset(s[i + 1..]);
    assert multiset(wanted[..i + 1]) == multiset(wanted) - multiset(wanted[i + 1..]);
    assert multiset(s[..i + 1]) == multiset(wanted[..i + 1]);
    SameElements(s[..i + 1], wanted[..i + 1]);
    assert wanted[..i + 1][i] in s[..i + 1];
    j :| 0 <= j < i + 1 && s[..i + 1][j] == wanted[i];
  }

  /** A shuffle depends on its own draws alone. */
  lemma {:induction false} ShuffledAgree<T>(s: seq<T>, i: int, r: Draws, q: Draws, at: int)
    requires AreDraws(r) && AreDraws(q) && i < |s| && AgreeOn(r, q, at, at + i)
    ensures IsSource(Scaled(r)) && IsSource(Scaled(q))
    ensures ShuffledFrom(s, i, Scaled(r), at) == ShuffledFrom(s, i, Scaled(q), at)
    decreases i
  {
    ScaledIsSource(r);
    ScaledIsSource(q);
    if i > 0 {
      assert r(at) == q(at);
      ShuffledAgree(Swapped(s, i, Scaled(r)(at, i + 1)), i - 1, r, q, at + 1);
    }
  }

  lemma SwapThenRest<T>(s: seq<T>, i: int, j: int, r: Draws, q: Draws, at: int)
    requires AreDraws(r) && AreDraws(q) && 0 <= j <= i < |s| && i > 0 && Scaled(r)(at, i + 1) == j
    requires AgreeOn(r, q, at + 1, at + i)
    ensures IsSource(Scaled(r)) && IsSource(Scaled(q))
    ensures ShuffledFrom(s, i, Scaled(r), at) == ShuffledFrom(Swapped(s, i, j), i - 1, Scaled(q), at + 1)
  {
    ScaledIsSource(r);
    ShuffledAgree(Swapped(s, i, j), i - 1, r, q, at + 1);
  }

  lemma SwapThatFits<T>(s: seq<T>, wanted: seq<T>, i: int) returns (j: int)
    requires multiset(s) == multiset(wanted) && 0 <= i < |s| == |wanted|
    requires forall k | i < k < |s| :: s[k] == wanted[k]
    ensures 0 <= j <= i && multiset(Swapped(s, i, j)) == multiset(wanted) && |Swapped(s, i, j)| == |wanted|
    ensures forall k | i <= k < |s| :: Swapped(s, i, j)[k] == wanted[k]
  {
    j := LastOneFits(s, wanted, i);
    SwappedIsArrangement(s, i, j);
  }

  lemma NothingLeft<T>(s: seq<T>, wanted: seq<T>, i: int)
    requires multiset(s) == multiset(wanted) && -1 <= i <= 0 && i < |s| == |wanted|
    requires forall k | i < k < |s| :: s[k] == wanted[k]
    ensures s == wanted
  {
    if i == 0 {
      var _ := LastOneFits(s, wanted, 0);
    }
  }

  /**
   Every arrangement of an array is the outcome of some draws, that differ from any given ones only there:
   no arrangement is shut out.
   */
  lemma {:induction false} EveryArrangementIsShuffled<T>(s: seq<T>, wanted: seq<T>, i: int, base: Draws, at: int)
    returns (draws: Draws)
    requires multiset(s) == multiset(wanted) && -1 <= i < |s| == |wanted| && AreDraws(base)
    requires forall k | i < k < |s| :: s[k] == wanted[k]
    ensures AreDraws(draws) && IsSource(Scaled(draws)) && ShuffledFrom(s, i, Scaled(draws), at) == wanted
    ensures SameOutside(draws, base, at, at + if i < 0 then 0 else i)
    decreases i
  {
    if i <= 0 {
      draws := base;
      ScaledIsSource(draws);
      NothingLeft(s, wanted, i);
    } else {
      var j := SwapThatFits(s, wanted, i);
      var rest := EveryArrangementIsShuffled(Swapped(s, i, j), wanted, i - 1, base, at + 1);
      draws := Steered(at, j, i + 1, rest);
      SteeredScales(at, j, i + 1, rest);
      SwapThenRest(s, i, j, draws, rest, at);
    }
  }

  method ShuffleInPlace<T>(a: array<T>, random: Source, at: int)
    requires IsSource(random)
    modifies a
    ensures a[..] == Shuffled(old(a[..]), random, at)
  {
    var used := 0;
    var i := a.Length - 1;
    while i > 0
      invariant i < a.Length && (a.Length > 0 ==> i >= 0)
      invariant Shuffled(old(a[..]), random, at) == ShuffledFrom(a[..], i, random, at + used)
    {
      var j := random(at + used, i + 1);
      ghost var before := a[..];
      a[i], a[j] := a[j], a[i];
      assert a[..] == Swapped(before, i, j);
      used, i := used + 1, i - 1;
    }
  }
}

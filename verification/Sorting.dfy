/** Stable sorting by a comparison, as Array.prototype.sort and List.Sort are used here. */
module Sorting {

  /** `less` ranks elements; two elements of equal rank are left in their order. */
  ghost predicate IsRanking<T(!new)>(less: (T, T) -> bool) {
    && (forall x, y :: less(x, y) ==> !less(y, x))
    && (forall x, y, z :: less(x, z) ==> less(x, y) || less(y, z))
  }

  predicate Sorted<T>(less: (T, T) -> bool, s: seq<T>) {
    forall i, j | 0 <= i < j < |s| :: !less(s[j], s[i])
  }

  /** Elements that rank equal are the same element. */
  ghost predicate RanksApart<T(!new)>(less: (T, T) -> bool, s: seq<T>) {
    forall x, y | x in s && y in s :: less(x, y) || less(y, x) || x == y
  }

  function Insert<T>(less: (T, T) -> bool, x: T, s: seq<T>): (r: seq<T>)
    ensures |r| == |s| + 1
    ensures multiset(r) == multiset{x} + multiset(s)
  {
    if s == [] then [x]
    else if less(s[0], x) then
      assert s == [s[0]] + s[1..];
      [s[0]] + Insert(less, x, s[1..])
    else [x] + s
  }

  function Sort<T>(less: (T, T) -> bool, s: seq<T>): (r: seq<T>)
    ensures |r| == |s|
    ensures multiset(r) == multiset(s)
  {
    if s == [] then []
    else
      assert s == [s[0]] + s[1..];
      Insert(less, s[0], Sort(less, s[1..]))
  }

  lemma {:induction false} InsertIsSorted<T(!new)>(less: (T, T) -> bool, x: T, s: seq<T>)
    requires IsRanking(less) && Sorted(less, s)
    ensures Sorted(less, Insert(less, x, s))
  {
    if s != [] && less(s[0], x) {
      InsertIsSorted(less, x, s[1..]);
      var t := Insert(less, x, s[1..]);
      forall j | 0 <= j < |t|
        ensures !less(t[j], s[0])
      {
        assert t[j] in multiset(t);
        if t[j] != x {
          assert t[j] in s[1..];
        }
      }
    }
  }

  lemma {:induction false} SortIsSorted<T(!new)>(less: (T, T) -> bool, s: seq<T>)
    requires IsRanking(less)
    ensures Sorted(less, Sort(less, s))
  {
    if s != [] {
      SortIsSorted(less, s[1..]);
      InsertIsSorted(less, s[0], Sort(less, s[1..]));
    }
  }

  lemma SameElements<T>(s: seq<T>, t: seq<T>)
    requires multiset(s) == multiset(t)
    ensures |s| == |t|
    ensures forall x :: x in s <==> x in t
  {
    assert |multiset(s)| == |s| && |multiset(t)| == |t|;
    assert forall x :: x in s <==> x in multiset(s);
    assert forall x :: x in t <==> x in multiset(t);
  }

  lemma SameFirst<T(!new)>(less: (T, T) -> bool, s: seq<T>, t: seq<T>)
    requires Sorted(less, s) && Sorted(less, t) && s != [] && t != []
    requires s[0] in t && t[0] in s && (less(s[0], t[0]) || less(t[0], s[0]) || s[0] == t[0])
    ensures s[0] == t[0]
  {
    var i :| 0 <= i < |t| && t[i] == s[0];
    var j :| 0 <= j < |s| && s[j] == t[0];
  }

  lemma RestIsSorted<T>(less: (T, T) -> bool, s: seq<T>)
    requires Sorted(less, s) && s != []
    ensures Sorted(less, s[1..])
  {
  }

  lemma RestRanksApart<T(!new)>(less: (T, T) -> bool, s: seq<T>)
    requires RanksApart(less, s) && s != []
    ensures RanksApart(less, s[1..])
  {
    forall x, y | x in s[1..] && y in s[1..] ensures less(x, y) || less(y, x) || x == y {
      assert x in s && y in s;
    }
  }

  lemma RestOf<T>(s: seq<T>)
    requires s != []
    ensures multiset(s[1..]) == multiset(s) - multiset{s[0]}
  {
    assert s == [s[0]] + s[1..];
  }

  /** A sorted arrangement of elements that rank apart is unique. */
  lemma {:induction false} SortedIsUnique<T(!new)>(less: (T, T) -> bool, s: seq<T>, t: seq<T>)
    requires Sorted(less, s) && Sorted(less, t)
    requires multiset(s) == multiset(t) && RanksApart(less, s)
    ensures s == t
    decreases |s|
  {
    SameElements(s, t);
    if s != [] {
      FirstsAgree(less, s, t);
      RestsAgree(s, t);
      RestRanksApart(less, s);
      RestIsSorted(less, s);
      RestIsSorted(less, t);
      SortedIsUnique(less, s[1..], t[1..]);
      FirstAndRest(s, t);
    }
  }

  lemma FirstsAgree<T(!new)>(less: (T, T) -> bool, s: seq<T>, t: seq<T>)
    requires Sorted(less, s) && Sorted(less, t) && s != [] && |s| == |t| && RanksApart(less, s)
    requires forall x :: x in s <==> x in t
    ensures s[0] == t[0]
  {
    assert s[0] in t && t[0] in s;
    SameFirst(less, s, t);
  }

  lemma RestsAgree<T>(s: seq<T>, t: seq<T>)
    requires s != [] && t != [] && s[0] == t[0] && multiset(s) == multiset(t)
    ensures multiset(s[1..]) == multiset(t[1..])
  {
    RestOf(s);
    RestOf(t);
  }

  lemma FirstAndRest<T>(s: seq<T>, t: seq<T>)
    requires s != [] && t != [] && s[0] == t[0] && s[1..] == t[1..]
    ensures s == t
  {
    assert s == [s[0]] + s[1..] && t == [t[0]] + t[1..];
  }

  /** Sorting forgets the incoming order when no two elements tie. */
  lemma SortForgetsOrder<T(!new)>(less: (T, T) -> bool, s: seq<T>, t: seq<T>)
    requires IsRanking(less) && multiset(s) == multiset(t) && RanksApart(less, s)
    ensures Sort(less, s) == Sort(less, t)
  {
    SortIsSorted(less, s);
    SortIsSorted(less, t);
    SameElements(s, Sort(less, s));
    SortedIsUnique(less, Sort(less, s), Sort(less, t));
  }

  // --------------------------------------------------------------------
  // Sequences without repetition
  // --------------------------------------------------------------------

  predicate Distinct<T(==)>(s: seq<T>) {
    forall i, j | 0 <= i < j < |s| :: s[i] != s[j]
  }

  ghost function Elements<T>(s: seq<T>): set<T> {
    set x | x in s
  }

  lemma {:induction false} DistinctCounts<T>(s: seq<T>)
    requires Distinct(s)
    ensures |Elements(s)| == |s|
    ensures multiset(s) == multiset(Elements(s))
  {
    if s != [] {
      DistinctCounts(s[1..]);
      assert s == [s[0]] + s[1..];
      assert Elements(s) == Elements(s[1..]) + {s[0]};
    }
  }

  lemma OccursTwice<T>(s: seq<T>, i: int, j: int)
    requires 0 <= i < j < |s| && s[i] == s[j]
    ensures multiset(s)[s[i]] >= 2
  {
    assert s == s[..i] + [s[i]] + s[i + 1..j] + [s[j]] + s[j + 1..];
  }

  lemma OccursOnce<T>(s: seq<T>, x: T)
    requires Distinct(s)
    ensures multiset(s)[x] <= 1
  {
    DistinctCounts(s);
  }

  /** What is taken from a sequence without repetition has none either. */
  lemma PartOfDistinct<T>(part: seq<T>, whole: seq<T>)
    requires multiset(part) <= multiset(whole) && Distinct(whole)
    ensures Distinct(part) && forall x | x in part :: x in whole
  {
    forall x | x in part ensures x in whole {
      assert x in multiset(part) && x in multiset(whole);
    }
    forall i, j | 0 <= i < j < |part| ensures part[i] != part[j] {
      if part[i] == part[j] {
        OccursTwice(part, i, j);
        OccursOnce(whole, part[i]);
      }
    }
  }

  lemma {:induction false} SubsetOfSameSize<T>(s: set<T>, t: set<T>)
    requires s <= t && |s| == |t|
    ensures s == t
  {
    assert t == s + (t - s);
    assert |t| == |s| + |t - s|;
  }

  /** Two such sequences of one length, one containing the other, are arrangements of each other. */
  lemma DistinctSame<T>(s: seq<T>, t: seq<T>)
    requires Distinct(s) && Distinct(t) && |s| == |t|
    requires forall x | x in s :: x in t
    ensures multiset(s) == multiset(t)
  {
    DistinctCounts(s);
    DistinctCounts(t);
    SubsetOfSameSize(Elements(s), Elements(t));
  }

  // --------------------------------------------------------------------
  // Removing one element, mapping all
  // --------------------------------------------------------------------

  function Without<T>(s: seq<T>, i: int): seq<T>
    requires 0 <= i < |s|
  {
    s[..i] + s[i + 1..]
  }

  /** A sequence around one of its elements. */
  lemma Parts<T>(s: seq<T>, i: int)
    requires 0 <= i < |s|
    ensures s == s[..i] + ([s[i]] + s[i + 1..])
  {
  }

  lemma JoinCounts<T>(a: seq<T>, b: seq<T>, x: seq<T>, y: seq<T>, whole: seq<T>)
    requires multiset(a) == multiset(x) && multiset(b) == multiset(y) && multiset(whole) == multiset(x) + multiset(y)
    ensures multiset(a + b) == multiset(whole)
  {
  }

  lemma WithoutOne<T>(s: seq<T>, i: int)
    requires 0 <= i < |s|
    ensures multiset(Without(s, i)) == multiset(s) - multiset{s[i]}
  {
    assert s == s[..i] + [s[i]] + s[i + 1..];
  }

  function Map<A, B>(f: A -> B, s: seq<A>): (r: seq<B>)
    ensures |r| == |s| && forall i | 0 <= i < |s| :: r[i] == f(s[i])
  {
    seq(|s|, i requires 0 <= i < |s| => f(s[i]))
  }

  lemma MapCons<A, B>(f: A -> B, x: A, s: seq<A>)
    ensures Map(f, [x] + s) == [f(x)] + Map(f, s)
  {
  }

  lemma {:induction false} MapCount<A, B>(f: A -> B, s: seq<A>, t: seq<A>)
    requires multiset(s) == multiset(t)
    ensures multiset(Map(f, s)) == multiset(Map(f, t))
    decreases |s|
  {
    SameElements(s, t);
    if s == [] {
      assert Map(f, s) == Map(f, t) == [];
    } else {
      assert s[0] in t;
      var i :| 0 <= i < |t| && t[i] == s[0];
      WithoutOne(s, 0);
      WithoutOne(t, i);
      MapCount(f, Without(s, 0), Without(t, i));
      MapWithout(f, s, 0);
      MapWithout(f, t, i);
    }
  }

  lemma MapWithout<A, B>(f: A -> B, s: seq<A>, i: int)
    requires 0 <= i < |s|
    ensures multiset(Map(f, s)) == multiset(Map(f, Without(s, i))) + multiset{f(s[i])}
  {
    assert Map(f, s) == Map(f, s[..i]) + [f(s[i])] + Map(f, s[i + 1..]);
    assert Map(f, Without(s, i)) == Map(f, s[..i]) + Map(f, s[i + 1..]);
  }
}
